/** The engine of internal/worker and the replay of internal/app, as methods over the objects they
    drive. Every method records the steps of Delivery it has taken, so whatever is proved of runs
    holds of the objects. */
module Workers {
  import opened Common
  import opened Jobs
  import opened Routing
  import opened Delivery
  import opened Effects
  import B = Brokers
  import C = Breakers
  import R = Buckets
  import G = Gates
  import L = Lists
  import I = Ingest
  import P = Backoff
  import A = Accounts
  import K = Ledger
  import V = Lineage

  // ---------- Runs as their labels ----------

  /** The steps labels can be taken from st one after the other, and lead to t. */
  ghost predicate Leads(c: Config, st: Sys, labels: seq<Label>, t: Sys) {
    if labels == [] then t == st
    else
      var n := |labels| - 1;
      exists m :: Leads(c, st, labels[..n], m) && Steps(c, m, labels[n], t)
  }

  lemma LeadsOn(c: Config, st: Sys, labels: seq<Label>, m: Sys, l: Label, t: Sys)
    requires Leads(c, st, labels, m) && Steps(c, m, l, t)
    ensures Leads(c, st, labels + [l], t)
  {
    assert (labels + [l])[..|labels|] == labels;
  }

  lemma {:induction false} LeadsFar(c: Config, st: Sys, labels: seq<Label>, m: Sys, more: seq<Label>, t: Sys)
    requires Leads(c, st, labels, m) && Leads(c, m, more, t)
    ensures Leads(c, st, labels + more, t)
    decreases |more|
  {
    hide Steps;
    if more == [] {
      assert labels + more == labels;
    } else {
      var n := |more| - 1;
      var u :| Leads(c, m, more[..n], u) && Steps(c, u, more[n], t);
      LeadsFar(c, st, labels, m, more[..n], u);
      LeadsOn(c, st, labels + more[..n], u, more[n], t);
      assert labels + more == labels + more[..n] + [more[n]];
    }
  }

  /** They are runs of Delivery. */
  lemma {:induction false} AsRun(c: Config, st: Sys, labels: seq<Label>, t: Sys) returns (states: seq<Sys>)
    requires Leads(c, st, labels, t)
    ensures IsRun(c, states, labels) && states[0] == st && states[|labels|] == t
    decreases |labels|
  {
    if labels == [] {
      return [st];
    }
    var n := |labels| - 1;
    var m :| Leads(c, st, labels[..n], m) && Steps(c, m, labels[n], t);
    var before := AsRun(c, st, labels[..n], m);
    states := before + [t];
    forall i | 0 <= i < |labels|
      ensures Steps(c, states[i], labels[i], states[i + 1])
    {
      if i < n {
        assert Steps(c, before[i], labels[..n][i], before[i + 1]);
      }
    }
  }

  // ---------- Replay ----------

  datatype ReplayResult = Replayed(fromDead: bool) | NoBody | NotFound

  /** Where a replay takes its body from: the dead letters first, then the journal. */
  datatype Source = Source(fromDead: bool, storeId: Id, body: Bytes)

  function SourceOf(dead: seq<DeadItem>, journal: seq<Entry>, of: Id): Option<Source> {
    match L.LastAt(dead, of)
    case Some(i) => Some(Source(true, dead[i].storeId, dead[i].body))
    case None =>
      match L.LastEntry(journal, of)
      case Some(e) => Some(Source(false, e.storeId, e.body))
      case None => None
  }

  function ReplayOutcome(src: Option<Source>, stores: map<Id, Store>): ReplayResult {
    if src.None? then NotFound
    else if |src.value.body| == 0 then NoBody
    else if src.value.storeId !in stores then NotFound
    else Replayed(src.value.fromDead)
  }

  /** The last dead letter of the relay decides, whatever the journal says; without one the last journal
      row does; without either there is nothing to replay. */
  lemma OutcomeIs(dead: seq<DeadItem>, journal: seq<Entry>, stores: map<Id, Store>, of: Id)
    ensures var r := ReplayOutcome(SourceOf(dead, journal, of), stores);
      && (forall i :: LastDead(dead, of, i) ==>
            r == if |dead[i].body| == 0 then NoBody
                 else if dead[i].storeId !in stores then NotFound else Replayed(true))
      && ((forall i :: 0 <= i < |dead| ==> dead[i].relayId != of) ==>
            && (forall i :: LastRow(journal, of, i) ==>
                  r == if |journal[i].body| == 0 then NoBody
                       else if journal[i].storeId !in stores then NotFound else Replayed(false))
            && ((forall i :: 0 <= i < |journal| ==> journal[i].relayId != of) ==> r == NotFound))
  {
    forall i, k | LastDead(dead, of, i) && LastDead(dead, of, k)
      ensures i == k
    {
    }
    if L.LastAt(dead, of).Some? {
      assert LastDead(dead, of, L.LastAt(dead, of).value);
    }
    forall i, k | LastRow(journal, of, i) && L.IsLastOf(journal, of, k)
      ensures i == k
    {
    }
  }

  /** Position i holds the last dead letter of the relay. */
  ghost predicate LastDead(dead: seq<DeadItem>, of: Id, i: int) {
    0 <= i < |dead| && dead[i].relayId == of && forall k :: i < k < |dead| ==> dead[k].relayId != of
  }

  ghost predicate LastRow(journal: seq<Entry>, of: Id, i: int) {
    0 <= i < |journal| && journal[i].relayId == of && forall k :: i < k < |journal| ==> journal[k].relayId != of
  }

  /** The steps of one replay, by its result. */
  function ReplayPath(r: ReplayResult, of: Id, newId: Id, now: Time): seq<Label> {
    match r
    case Replayed(true) => Dated(now, ReplayDead(of, newId, now)) + Dated(now, RemoveDead(of))
    case Replayed(false) => Dated(now, ReplayJournal(of, newId, now))
    case _ => []
  }

  // ---------- An accepted frame ----------

  /** The steps of a fan-out: one relay minted for every item of the plan. */
  function Relaying(frame: Id, plan: seq<PlanItem>, at: Time): seq<Label> {
    seq(|plan|, i requires 0 <= i < |plan| => RelayFrame(frame, plan[i].storeId, plan[i].relayId, at))
  }

  /** All that an accepted frame makes the system do. */
  function Accepting(frame: Id, payload: Payload, plan: seq<PlanItem>, at: Time): seq<Label> {
    [AcceptFrame(frame, payload)] + Relaying(frame, plan, at)
  }

  /** The items name registered stores and new relay ids, each once. */
  ghost predicate Fresh(st: Sys, plan: seq<PlanItem>) {
    && (forall i :: 0 <= i < |plan| ==> plan[i].storeId in st.stores && plan[i].relayId !in st.hist.births)
    && (forall i, k :: 0 <= i < k < |plan| ==> plan[i].relayId != plan[k].relayId && plan[i].storeId != plan[k].storeId)
  }

  /** The stores of the items are still to get their relay of the frame. */
  ghost predicate Owed(st: Sys, frame: Id, plan: seq<PlanItem>) {
    frame in st.hist.accepted && frame in st.plans && forall i :: 0 <= i < |plan| ==> plan[i].storeId in st.plans[frame]
  }

  /** t differs from st in the broker and the history only. */
  ghost predicate OnlyRelayed(st: Sys, t: Sys) {
    && t.now == st.now && t.stores == st.stores && t.gates == st.gates && t.workers == st.workers
    && t.dead == st.dead && t.journal == st.journal && t.removals == st.removals && t.hist.accepted == st.hist.accepted
  }

  /** Enqueuing the relays of a plan one by one, as the pipeline does, is one RelayFrame step per item. */
  lemma {:induction false} Fanned(c: Config, st: Sys, frame: Id, plan: seq<PlanItem>, at: Time) returns (t: Sys)
    requires Owed(st, frame, plan) && Fresh(st, plan) && at <= st.now
    ensures Leads(c, st, Relaying(frame, plan, at), t) && OnlyRelayed(st, t)
    ensures frame in t.plans && t.plans[frame] == st.plans[frame] - Served(plan)
    ensures var p := st.hist.accepted[frame];
      t.broker == I.Relayed(st.broker, plan, st.stores, frame, p.typ, p.body, at)
    ensures forall r :: r in t.hist.births ==> r in st.hist.births || InPlan(plan, r)
    decreases |plan|
  {
    hide Steps, I.Relayed, InPlan, Relaying;
    RelayingSplit(frame, plan, at);
    var p := st.hist.accepted[frame];
    I.RelayedNone(st.broker, plan[..0], st.stores, frame, p.typ, p.body, at);
    if plan == [] {
      return st;
    }
    var n := |plan| - 1;
    var m := Fanned(c, st, frame, plan[..n], at);
    OneMoreInPlan(st, plan);
    OneMoreServed(plan);
    t := RelayedStep(c, m, frame, plan[n], at);
    I.RelayedNext(st.broker, plan, st.stores, frame, p.typ, p.body, at, n);
    assert plan[..n + 1] == plan;
    LeadsOn(c, st, Relaying(frame, plan[..n], at), m, RelayFrame(frame, plan[n].storeId, plan[n].relayId, at), t);
  }

  lemma RelayingSplit(frame: Id, plan: seq<PlanItem>, at: Time)
    ensures plan == [] ==> Relaying(frame, plan, at) == []
    ensures plan != [] ==> var n := |plan| - 1;
      Relaying(frame, plan, at) ==
        Relaying(frame, plan[..n], at) + [RelayFrame(frame, plan[n].storeId, plan[n].relayId, at)]
  {
  }

  /** The stores of a plan. */
  function Served(plan: seq<PlanItem>): set<Id> {
    set i | 0 <= i < |plan| :: plan[i].storeId
  }

  lemma OneMoreServed(plan: seq<PlanItem>)
    requires plan != []
    ensures var n := |plan| - 1; Served(plan) == Served(plan[..n]) + {plan[n].storeId}
  {
    var n := |plan| - 1;
    forall s | s in Served(plan)
      ensures s in Served(plan[..n]) + {plan[n].storeId}
    {
      var i :| 0 <= i < |plan| && plan[i].storeId == s;
      assert i < n ==> plan[..n][i].storeId == s;
    }
    forall s | s in Served(plan[..n]) + {plan[n].storeId}
      ensures s in Served(plan)
    {
      if s != plan[n].storeId {
        var i :| 0 <= i < n && plan[..n][i].storeId == s;
        assert plan[i].storeId == s;
      }
    }
  }

  ghost predicate InPlan(plan: seq<PlanItem>, r: Id) {
    exists i :: 0 <= i < |plan| && plan[i].relayId == r
  }

  lemma OneMoreInPlan(st: Sys, plan: seq<PlanItem>)
    requires plan != [] && Fresh(st, plan)
    ensures var n := |plan| - 1;
      && Fresh(st, plan[..n]) && !InPlan(plan[..n], plan[n].relayId)
      && InPlan(plan, plan[n].relayId) && forall r :: InPlan(plan[..n], r) ==> InPlan(plan, r)
  {
  }

  lemma RelayedStep(c: Config, st: Sys, frame: Id, item: PlanItem, at: Time) returns (t: Sys)
    requires Owed(st, frame, [item]) && item.storeId in st.stores && item.relayId !in st.hist.births && at <= st.now
    ensures Steps(c, st, RelayFrame(frame, item.storeId, item.relayId, at), t) && OnlyRelayed(st, t)
    ensures var p, d := st.hist.accepted[frame], st.stores[item.storeId];
      t.broker == B.EnqueueView(st.broker, I.RelayJob(frame, p.typ, p.body, at, item), d.ordered, d.maxInFlight)
    ensures t.hist.births.Keys == st.hist.births.Keys + {item.relayId}
    ensures t.plans == st.plans[frame := st.plans[frame] - {item.storeId}]
  {
    var p := st.hist.accepted[frame];
    assert [item][0].storeId in st.plans[frame];
    var plans := st.plans[frame := st.plans[frame] - {item.storeId}];
    t := Minted(st, I.RelayJob(frame, p.typ, p.body, at, item)).(plans := plans);
  }

  lemma PlanIsFresh(st: Sys, plan: seq<PlanItem>, typ: string, relayIds: nat -> Id)
    requires I.PlanFor(plan, st.stores, typ) && forall i :: 0 <= i < |plan| ==> plan[i].relayId == relayIds(i)
    requires forall i, k :: 0 <= i < k ==> relayIds(i) != relayIds(k)
    requires forall i: nat :: relayIds(i) !in st.hist.births
    ensures Fresh(st, plan)
  {
  }

  lemma PlanIsServed(stores: map<Id, Store>, typ: string, plan: seq<PlanItem>)
    requires I.PlanFor(plan, stores, typ)
    ensures PlanOf(stores, typ) == Served(plan)
  {
    hide Store.Matches;
  }

  /** The frame gets its plan. */
  lemma AcceptedStep(c: Config, st: Sys, frame: Id, payload: Payload, plan: seq<PlanItem>) returns (t: Sys)
    requires frame !in st.hist.accepted && |payload.body| > 0 && ValidType(Trim(payload.typ))
    requires I.PlanFor(plan, st.stores, payload.typ) && Fresh(st, plan)
    ensures Steps(c, st, AcceptFrame(frame, payload), t) && frame in t.plans && t.plans[frame] == Served(plan)
    ensures Owed(t, frame, plan) && Fresh(t, plan)
    ensures t == st.(plans := t.plans, hist := st.hist.(accepted := st.hist.accepted[frame := payload]))
  {
    hide ValidType, Trim, PlanOf, I.PlanFor;
    PlanIsServed(st.stores, payload.typ, plan);
    t := Apply(c, st, AcceptFrame(frame, payload));
    assert forall i :: 0 <= i < |plan| ==> plan[i].storeId in Served(plan);
  }

  /** The same with the acceptance before it. */
  lemma Accepted(c: Config, st: Sys, frame: Id, payload: Payload, plan: seq<PlanItem>, at: Time) returns (t: Sys)
    requires frame !in st.hist.accepted && |payload.body| > 0 && ValidType(Trim(payload.typ))
    requires I.PlanFor(plan, st.stores, payload.typ) && Fresh(st, plan) && at <= st.now
    ensures Leads(c, st, Accepting(frame, payload, plan, at), t) && frame in t.plans && t.plans[frame] == {}
    ensures t.stores == st.stores && t.gates == st.gates && t.workers == st.workers && t.dead == st.dead
    ensures t.journal == st.journal
    ensures t.broker == I.Relayed(st.broker, plan, st.stores, frame, payload.typ, payload.body, at)
  {
    hide Steps, ValidType, Trim, I.PlanFor, I.Relayed, Relaying, Served, Owed, Fresh;
    var l := AcceptFrame(frame, payload);
    var m := AcceptedStep(c, st, frame, payload, plan);
    assert Leads(c, st, [], st);
    LeadsOn(c, st, [], st, l, m);
    assert [] + [l] == [l];
    t := Fanned(c, m, frame, plan, at);
    LeadsFar(c, st, [l], m, Relaying(frame, plan, at), t);
  }

  // ---------- The ways through handle ----------

  /** clk(k) is the k-th instant of one tick: each critical section has its own. */
  ghost predicate Ticking(clk: nat -> Time) {
    forall i, k :: 0 <= i <= k ==> clk(i) <= clk(k)
  }

  /** A step at instant at. */
  function Dated(at: Time, l: Label): seq<Label> {
    [AdvanceTo(at), l]
  }

  /** How handle ended. */
  datatype Exit = Unavailable | BreakerOpen | RateLimited | Succeeded | TurnedDown | OutOfAttempts | WillRetry

  function Refusing(w: nat, clk: nat -> Time): seq<Label> {
    Dated(clk(2), Work(w, Bury(clk(2)))) + Dated(clk(3), Work(w, Note(clk(3))))
  }

  function Asking(w: nat, store: Id, clk: nat -> Time): seq<Label> {
    Dated(clk(2), OpenGates(w, store)) + Dated(clk(3), Work(w, Allow))
  }

  function Postponing(w: nat, clk: nat -> Time, k: nat): seq<Label> {
    Dated(clk(k), Work(w, Requeue(clk(k)))) + Dated(clk(k + 1), Work(w, Note(clk(k + 1))))
  }

  function Posted(w: nat, clk: nat -> Time, kind: Kind): seq<Label> {
    Dated(clk(5), Work(w, Answer(kind, clk(5)))) + Dated(clk(6), Work(w, Tell))
  }

  function Settled(w: nat, clk: nat -> Time, u: real, e: Exit): seq<Label> {
    match e
    case Succeeded => Dated(clk(7), Work(w, Deliver))
    case TurnedDown => Dated(clk(7), Work(w, GiveUp(clk(7))))
    case OutOfAttempts => Dated(clk(7), Work(w, GiveUp(clk(7)))) + Dated(clk(8), Work(w, Note(clk(8))))
    case _ => Dated(clk(7), Work(w, Retry(clk(7), u)))
  }

  /** After the breaker has let the job through. */
  function Attempting(w: nat, clk: nat -> Time, kind: Kind, u: real, e: Exit): seq<Label> {
    Dated(clk(4), Work(w, Take)) +
    if e.RateLimited? then Postponing(w, clk, 5) else Posted(w, clk, kind) + Settled(w, clk, u, e)
  }

  function Proceeding(w: nat, store: Id, clk: nat -> Time, kind: Kind, u: real, e: Exit): seq<Label> {
    Asking(w, store, clk) + if e.BreakerOpen? then Postponing(w, clk, 4) else Attempting(w, clk, kind, u, e)
  }

  /** The steps of one handle, by how it ends. */
  function PathOf(w: nat, store: Id, clk: nat -> Time, kind: Kind, u: real, e: Exit): seq<Label> {
    Dated(clk(1), Work(w, LookUp)) +
    if e.Unavailable? then Refusing(w, clk) else Proceeding(w, store, clk, kind, u, e)
  }

  /** The steps of one tick that finds a job. */
  function OneTick(w: nat, j: Job, clk: nat -> Time, kind: Kind, u: real, e: Exit): seq<Label> {
    Dated(clk(0), Work(w, Lease(j))) + PathOf(w, j.storeId, clk, kind, u, e) + Dated(clk(9), Work(w, Release))
  }

  lemma Glued(a: seq<Label>, b: seq<Label>, c: seq<Label>)
    ensures a + b + c == a + (b + c)
  {
  }

  /** What a breaker makes of an outcome. */
  lemma ToldMeans(o: C.BreakerState, c: Config, kind: Kind, now: Time)
    ensures var b := if kind == Success then C.SuccessOf(o) else C.FailureOf(o, c.breaker, now);
      && (kind == Success ==> b.state == C.Closed && b.failures == 0)
      && (kind != Success && o.state == C.Closed ==> b.failures == o.failures + 1)
      && (kind != Success && o.state == C.HalfOpen ==> b.state == C.Open && b.openedAt == now)
  {
  }

  lemma RetriedIs(c: Config, j: Job, at: Time, u: real)
    ensures Retried(c, j, at, u) == j.(notBefore := at + P.Delay(c.policy, j.attempt, u))
  {
  }

  class Engine {
    const cfg: Config
    const broker: B.Broker
    const stores: Registry
    const gates: G.Registry
    const dead: L.DeadQueue
    const log: L.Log
    ghost const start: Sys
    ghost var labels: seq<Label>   // the steps taken so far
    ghost var state: Sys           // where they have led to

    ghost function Repr(): (r: set<object>)
      reads this, broker, gates
      ensures this in r
    {
      {this, broker, gates, dead, log} + broker.dests.Values + broker.heaps + broker.cells
      + gates.breakers.Values + gates.buckets.Values
    }

    ghost predicate Valid()
      reads Repr(), stores
    {
      Initial(start) && Leads(cfg, start, labels, state) && Objects() && Shows(state)
    }

    ghost predicate Objects()
      reads broker, broker.dests.Values, broker.heaps, broker.cells
      reads gates, gates.breakers.Values, gates.buckets.Values, stores
    {
      && GoodConfig(cfg) && C.Normalize(gates.cfg) == cfg.breaker && dead.cap == cfg.deadCap && log.cap == cfg.logCap
      && broker.Valid() && gates.Valid() && stores.Valid()
    }

    /** The objects hold what st says they hold. */
    ghost predicate Shows(st: Sys)
      reads broker, stores, gates, dead, log
    {
      && broker.view == st.broker && stores.items == st.stores && gates.view == st.gates
      && dead.items == st.dead && log.entries == st.journal
    }

    /** Worker w stands in phase p. */
    ghost predicate Stands(w: nat, p: Phase)
      reads this`state
    {
      w < |state.workers| && state.workers[w] == p
    }

    constructor (cfg: Config, broker: B.Broker, stores: Registry, gates: G.Registry, dead: L.DeadQueue, log: L.Log,
                 n: nat, ghost now: Time)
      requires GoodConfig(cfg) && C.Normalize(gates.cfg) == cfg.breaker && dead.cap == cfg.deadCap
      requires log.cap == cfg.logCap
      requires broker.Valid() && gates.Valid() && stores.Valid()
      requires broker.view == map[] && gates.view == G.EMPTY && stores.items == map[] && dead.items == []
      requires log.entries == []
      ensures Valid() && this.broker == broker && this.stores == stores && this.gates == gates
      ensures this.dead == dead && this.log == log && this.cfg == cfg && forall w :: 0 <= w < n ==> Stands(w, Idle)
    {
      this.cfg, this.broker, this.stores, this.gates, this.dead, this.log := cfg, broker, stores, gates, dead, log;
      start := Sys(now, map[], map[], G.EMPTY, seq(n, _ => Idle), [], [], map[], multiset{},
                   History(map[], map[], multiset{}, multiset{}, multiset{}, map[], map[], map[]));
      labels, state := [], start;
    }

    // ---------- One critical section each ----------

    /** The objects have moved, by the step l at instant now; the run follows to t. */
    ghost method Step(now: Time, l: Label, t: Sys)
      requires Initial(start) && Leads(cfg, start, labels, state) && state.now <= now && Objects()
      requires Steps(cfg, state.(now := now), l, t) && Shows(t)
      modifies this
      ensures Valid() && state == t && labels == old(labels) + [AdvanceTo(now), l] && Repr() == old(Repr())
    {
      hide Enabled, Apply;
      Clock(now);
      LeadsOn(cfg, start, labels, state, AdvanceTo(now), state.(now := now));
      LeadsOn(cfg, start, labels + [AdvanceTo(now)], state.(now := now), l, t);
      assert labels + [AdvanceTo(now)] + [l] == labels + [AdvanceTo(now), l];
      state, labels := t, labels + [AdvanceTo(now), l];
    }

    /** The objects have moved, by the steps ls after the clock has reached now; the run follows to t. */
    ghost method Follow(now: Time, ls: seq<Label>, t: Sys)
      requires Initial(start) && Leads(cfg, start, labels, state) && state.now <= now && Objects()
      requires Leads(cfg, state.(now := now), ls, t) && Shows(t)
      modifies this
      ensures Valid() && state == t && labels == old(labels) + [AdvanceTo(now)] + ls && Repr() == old(Repr())
    {
      hide Enabled, Apply, B.Broker.Valid, G.Registry.Valid;
      Clock(now);
      LeadsOn(cfg, start, labels, state, AdvanceTo(now), state.(now := now));
      LeadsFar(cfg, start, labels + [AdvanceTo(now)], state.(now := now), ls, t);
      state, labels := t, labels + [AdvanceTo(now)] + ls;
    }

    lemma Clock(now: Time)
      requires state.now <= now
      ensures Steps(cfg, state, AdvanceTo(now), state.(now := now))
    {
    }

    method LeaseJob(now: Time) returns (r: Option<Job>, ghost id: Id)
      requires Objects()
      modifies broker, broker.dests.Values, broker.heaps, broker.cells
      ensures gates.view == old(gates.view) && dead.items == old(dead.items) && log.entries == old(log.entries)
      ensures stores.items == old(stores.items) && state == old(state) && labels == old(labels)
      ensures gates.breakers == old(gates.breakers) && gates.buckets == old(gates.buckets)
      ensures Objects() && broker.dests == old(broker.dests) && broker.heaps == old(broker.heaps)
      ensures broker.cells == old(broker.cells)
      ensures r.None? ==> B.NothingDue(broker.view, now) && broker.view == old(broker.view)
      ensures r.Some? ==>
        B.Leasable(old(broker.view), now, id, r.value) && broker.view == B.LeaseView(old(broker.view), id, r.value)
    {
      r, id := broker.Lease(now);
    }

    method PutBack(j: Job, d: Store)
      requires Objects()
      modifies Repr()
      ensures Objects() && broker.view == B.EnqueueView(old(broker.view), j, d.ordered, d.maxInFlight)
      ensures forall o :: o in Repr() ==> o in old(Repr()) || fresh(o)
      ensures gates.view == old(gates.view) && dead.items == old(dead.items) && log.entries == old(log.entries)
      ensures stores.items == old(stores.items) && state == old(state) && labels == old(labels)
    {
      hide Objects;
      Enqueue(j, d);
    }

    method Enqueue(j: Job, d: Store)
      requires Objects()
      modifies broker, broker.dests.Values, broker.heaps, broker.cells
      ensures Objects() && broker.view == B.EnqueueView(old(broker.view), j, d.ordered, d.maxInFlight)
      ensures fresh(broker.dests.Values - old(broker.dests.Values))
      ensures fresh(broker.heaps - old(broker.heaps)) && fresh(broker.cells - old(broker.cells))
      ensures gates.breakers == old(gates.breakers) && gates.buckets == old(gates.buckets)
      ensures gates.view == old(gates.view) && dead.items == old(dead.items) && log.entries == old(log.entries)
      ensures stores.items == old(stores.items) && state == old(state) && labels == old(labels)
    {
      hide G.Registry.Valid, B.Broker.Valid, Registry.Valid;
      broker.Enqueue(j, d.ordered, d.maxInFlight);
    }

    method FreeSlot(id: Id)
      requires Objects()
      modifies Repr()
      ensures Objects() && broker.view == B.ReleaseView(old(broker.view), id)
      ensures forall o :: o in Repr() ==> o in old(Repr()) || fresh(o)
      ensures gates.view == old(gates.view) && dead.items == old(dead.items) && log.entries == old(log.entries)
      ensures stores.items == old(stores.items) && state == old(state) && labels == old(labels)
    {
      hide G.Registry.Valid, B.Broker.Valid;
      broker.Release(id);
    }

    method MakeGates(d: Store, now: Time)
      requires Objects()
      modifies gates
      ensures Objects() && gates.view == G.EnsureView(old(gates.view), d.id, G.RateSpec(d.rate, d.burst), now)
      ensures d.id in gates.view.breakers && d.id in gates.view.buckets
      ensures broker.view == old(broker.view) && dead.items == old(dead.items) && log.entries == old(log.entries)
      ensures stores.items == old(stores.items) && state == old(state) && labels == old(labels)
      ensures broker.dests == old(broker.dests) && broker.heaps == old(broker.heaps)
      ensures broker.cells == old(broker.cells)
      ensures fresh(gates.breakers.Values - old(gates.breakers.Values))
      ensures fresh(gates.buckets.Values - old(gates.buckets.Values))
    {
      gates.Ensure(d.id, d.rate, d.burst, now);
    }

    method AskBreaker(id: Id, now: Time) returns (d: C.Decision)
      requires Objects() && id in gates.view.breakers
      modifies gates, gates.breakers.Values
      ensures Objects() && gates.buckets == old(gates.buckets)
      ensures fresh(gates.breakers.Values - old(gates.breakers.Values))
      ensures id in gates.breakers
      ensures var (b, o) := C.AllowOf(old(gates.view).breakers[id], cfg.breaker, now);
        d == o && gates.view == old(gates.view).(breakers := old(gates.view).breakers[id := b])
    {
      d := gates.Allow(id, now);
    }

    method TakeToken(id: Id, now: Time) returns (wait: Time)
      requires Objects() && id in gates.view.buckets
      modifies gates, gates.buckets.Values
      ensures Objects() && gates.breakers == old(gates.breakers)
      ensures fresh(gates.buckets.Values - old(gates.buckets.Values))
      ensures id in gates.buckets && old(gates.view).buckets[id].rate > 0.0
      ensures var (b, o) := R.TakeOf(old(gates.view).buckets[id], now);
        wait == o && gates.view == old(gates.view).(buckets := old(gates.view).buckets[id := b])
    {
      wait := gates.Take(id, now);
    }

    /** br.Success() or br.Failure(). */
    method Report(id: Id, kind: Kind, now: Time)
      requires Objects() && id in gates.view.breakers
      modifies gates, gates.breakers.Values
      ensures Objects() && gates.buckets == old(gates.buckets)
      ensures fresh(gates.breakers.Values - old(gates.breakers.Values))
      ensures gates.view == old(gates.view).(breakers := old(gates.view).breakers[id :=
        if kind == Success then C.SuccessOf(old(gates.view).breakers[id])
        else C.FailureOf(old(gates.view).breakers[id], cfg.breaker, now)])
    {
      if kind == Success {
        gates.Success(id);
      } else {
        gates.Failure(id, now);
      }
    }

    method Lease(w: nat, now: Time) returns (r: Option<Job>)
      requires Valid() && Stands(w, Idle) && state.now <= now
      modifies Repr()
      ensures Valid()
      ensures forall o :: o in Repr() ==> o in old(Repr()) || fresh(o)
      ensures r.None? ==> labels == old(labels) && state == old(state) && B.NothingDue(broker.view, now)
      ensures r.Some? ==> Stands(w, Leased(r.value)) && state.now == now
      ensures r.Some? ==> labels == old(labels) + [AdvanceTo(now), Work(w, Delivery.Lease(r.value))]
    {
      hide Objects;
      ghost var states := AsRun(cfg, start, labels, state);
      A.AccountsHold(cfg, states, labels, |labels|);
      ghost var id;
      r, id := LeaseJob(now);
      if r.Some? {
        assert A.QueueOk(state, id);
        ghost var t := LeaseEffect(cfg, state.(now := now), w, r.value);
        Step(now, Work(w, Delivery.Lease(r.value)), t);
      }
    }

    method LookUp(w: nat, j: Job, now: Time) returns (d: Option<Store>)
      requires Valid() && Stands(w, Leased(j)) && state.now <= now
      modifies Repr()
      ensures Valid() && stores.items == old(stores.items) && state.now == now
      ensures forall o :: o in Repr() ==> o in old(Repr()) || fresh(o)
      ensures labels == old(labels) + [AdvanceTo(now), Work(w, Delivery.LookUp)]
      ensures d.Some? <==> j.storeId in stores.items && stores.items[j.storeId].enabled
      ensures d.Some? ==> d.value == stores.items[j.storeId] && Serves(j, d.value) && Stands(w, Checked(j))
      ensures d.None? ==> Stands(w, Condemned(j))
    {
      ghost var t := LookUpEffect(cfg, state.(now := now), w, j);
      Step(now, Work(w, Delivery.LookUp), t);
      d := None;
      if j.storeId in stores.items && stores.items[j.storeId].enabled {
        d := Some(stores.items[j.storeId]);
      }
    }

    /** The dead letter of a job ends the dead letters it is pushed onto. */
    lemma Newest(s: seq<DeadItem>, j: Job, reason: Reason, at: Time)
      requires Valid()
      ensures var items := LastN(s + [DeadFromJob(j, reason, at)], cfg.deadCap);
        |items| > 0 && items[|items| - 1] ==
          DeadItem(at, reason, j.frameId, j.relayId, j.storeId, j.typ, j.attempt, j.body, j.replayOf)
    {
      hide Leads, Initial, Shows;
      assert cfg.deadCap >= 1;
    }

    /** ... and its row the journal. */
    lemma NewestRow(s: seq<Entry>, j: Job, row: RowKind, at: Time)
      requires Valid()
      ensures var rows := LastN(s + [EntryFromJob(j, row, at)], cfg.logCap);
        |rows| > 0 && rows[|rows| - 1] ==
          Entry(at, j.frameId, j.relayId, j.storeId, j.attempt, row, j.typ, j.body, j.replayOf)
    {
      hide Leads, Initial, Shows;
      assert cfg.logCap >= 1;
    }

    method Bury(w: nat, j: Job, at: Time)
      requires Valid() && Stands(w, Condemned(j)) && state.now <= at
      modifies Repr()
      ensures Valid() && state.now == at
      ensures forall o :: o in Repr() ==> o in old(Repr()) || fresh(o)
      ensures labels == old(labels) + [AdvanceTo(at), Work(w, Delivery.Bury(at))] && Stands(w, Noting(j, TerminalNote))
      ensures |dead.items| > 0 && dead.items[|dead.items| - 1] ==
        DeadItem(at, StoreUnavailable, j.frameId, j.relayId, j.storeId, j.typ, j.attempt, j.body, j.replayOf)
    {
      hide Valid, Repr, Stands, LastN, DeadFromJob;
      Newest(dead.items, j, StoreUnavailable, at);
      PushBuried(w, j, at);
    }

    method PushBuried(w: nat, j: Job, at: Time)
      requires Valid() && Stands(w, Condemned(j)) && state.now <= at
      modifies Repr()
      ensures Valid() && state.now == at
      ensures forall o :: o in Repr() ==> o in old(Repr()) || fresh(o)
      ensures labels == old(labels) + [AdvanceTo(at), Work(w, Delivery.Bury(at))] && Stands(w, Noting(j, TerminalNote))
      ensures dead.items == LastN(old(dead.items) + [DeadFromJob(j, StoreUnavailable, at)], cfg.deadCap)
    {
      hide LastN, DeadFromJob, Steps, Initial, Leads;
      dead.Push(DeadFromJob(j, StoreUnavailable, at));
      ghost var t := BuryEffect(cfg, state.(now := at), w, j);
      Step(at, Work(w, Delivery.Bury(at)), t);
    }

    method EnsureGates(w: nat, j: Job, d: Store, now: Time)
      requires Valid() && Stands(w, Checked(j)) && state.now <= now && Serves(j, d)
      modifies Repr()
      ensures Valid() && stores.items == old(stores.items) && state.now == now
      ensures forall o :: o in Repr() ==> o in old(Repr()) || fresh(o)
      ensures labels == old(labels) + [AdvanceTo(now), OpenGates(w, j.storeId)] && Stands(w, Checked(j))
      ensures Gated(j.storeId)
    {
      hide Objects, Steps, Initial, Leads, G.EnsureView;
      MakeGates(d, now);
      ghost var t := OpenGatesEffect(cfg, state.(now := now), w, j.storeId);
      Step(now, OpenGates(w, j.storeId), t);
    }

    /** d is the store of j as the worker looked it up; it may have been switched since. */
    ghost predicate Serves(j: Job, d: Store)
      reads stores
    {
      && d.id == j.storeId && j.storeId in stores.items
      && var e := stores.items[j.storeId];
      d.ordered == e.ordered && d.maxInFlight == e.maxInFlight && d.rate == e.rate && d.burst == e.burst
    }

    /** The store's breaker and bucket are there, made for the rate it has now. */
    ghost predicate Gated(id: Id)
      reads this`state
    {
      && id in state.stores && id in state.gates.breakers && id in state.gates.buckets && id in state.gates.rates
      && state.gates.rates[id] == G.RateSpec(state.stores[id].rate, state.stores[id].burst)
    }

    method Allow(w: nat, j: Job, now: Time) returns (allowed: bool)
      requires Valid() && Stands(w, Checked(j)) && state.now <= now && Gated(j.storeId)
      modifies Repr()
      ensures Valid() && stores.items == old(stores.items) && state.now == now && Gated(j.storeId)
      ensures forall o :: o in Repr() ==> o in old(Repr()) || fresh(o)
      ensures labels == old(labels) + [AdvanceTo(now), Work(w, Delivery.Allow)]
      ensures Stands(w, if allowed then Admitted(j) else Deferred(j, 200 * MILLISECOND, SkippedOpen))
    {
      hide Objects;
      var d := AskBreaker(j.storeId, now);
      ghost var t := AllowEffect(cfg, state.(now := now), w, j);
      Step(now, Work(w, Delivery.Allow), t);
      allowed := d.allow;
    }

    method Take(w: nat, j: Job, now: Time) returns (wait: Time)
      requires Valid() && Stands(w, Admitted(j)) && state.now <= now && Gated(j.storeId)
      modifies Repr()
      ensures Valid() && stores.items == old(stores.items) && state.now == now && Gated(j.storeId)
      ensures forall o :: o in Repr() ==> o in old(Repr()) || fresh(o)
      ensures labels == old(labels) + [AdvanceTo(now), Work(w, Delivery.Take)]
      ensures Stands(w, if wait > 0 then Deferred(j, wait, RateDelayed) else Posting(j.(attempt := j.attempt + 1)))
    {
      hide Objects;
      wait := TakeToken(j.storeId, now);
      ghost var t := TakeEffect(cfg, state.(now := now), w, j);
      Step(now, Work(w, Delivery.Take), t);
    }

    method Requeue(w: nat, j: Job, d: Store, wait: Time, row: RowKind, at: Time)
      requires Valid() && Stands(w, Deferred(j, wait, row)) && state.now <= at && Serves(j, d)
      modifies Repr()
      ensures Valid() && state.now == at
      ensures forall o :: o in Repr() ==> o in old(Repr()) || fresh(o)
      ensures labels == old(labels) + [AdvanceTo(at), Work(w, Delivery.Requeue(at))] && Stands(w, Noting(j, row))
      ensures I.Waiting(broker.view, j.storeId) ==
        old(I.Waiting(broker.view, j.storeId)) + multiset{j.(notBefore := at + wait)}
    {
      hide Objects, Repr, I.Waiting, B.EnqueueView;
      I.EnqueueAdds(broker.view, Postponed(j, at, wait), d);
      PutBack(Postponed(j, at, wait), d);
      ghost var t := RequeueEffect(cfg, state.(now := at), w, j, wait, row);
      Step(at, Work(w, Delivery.Requeue(at)), t);
    }

    method Note(w: nat, j: Job, row: RowKind, at: Time)
      requires Valid() && Stands(w, Noting(j, row)) && state.now <= at
      modifies Repr()
      ensures Valid() && state.now == at
      ensures forall o :: o in Repr() ==> o in old(Repr()) || fresh(o)
      ensures labels == old(labels) + [AdvanceTo(at), Work(w, Delivery.Note(at))] && Stands(w, Finished(j.storeId))
      ensures |log.entries| > 0 && log.entries[|log.entries| - 1] ==
        Entry(at, j.frameId, j.relayId, j.storeId, j.attempt, row, j.typ, j.body, j.replayOf)
    {
      hide Valid, Repr, Stands, LastN, EntryFromJob;
      NewestRow(log.entries, j, row, at);
      AppendNote(w, j, row, at);
    }

    method AppendNote(w: nat, j: Job, row: RowKind, at: Time)
      requires Valid() && Stands(w, Noting(j, row)) && state.now <= at
      modifies Repr()
      ensures Valid() && state.now == at
      ensures forall o :: o in Repr() ==> o in old(Repr()) || fresh(o)
      ensures labels == old(labels) + [AdvanceTo(at), Work(w, Delivery.Note(at))] && Stands(w, Finished(j.storeId))
      ensures log.entries == LastN(old(log.entries) + [EntryFromJob(j, row, at)], cfg.logCap)
    {
      hide LastN, EntryFromJob, Steps, Initial, Leads;
      log.Append(EntryFromJob(j, row, at));
      ghost var t := NoteEffect(cfg, state.(now := at), w, j, row);
      Step(at, Work(w, Delivery.Note(at)), t);
    }

    method Answer(w: nat, j: Job, kind: Kind, at: Time)
      requires Valid() && Stands(w, Posting(j)) && state.now <= at && Gated(j.storeId)
      modifies Repr()
      ensures Valid() && stores.items == old(stores.items) && state.now == at && Gated(j.storeId)
      ensures forall o :: o in Repr() ==> o in old(Repr()) || fresh(o)
      ensures labels == old(labels) + [AdvanceTo(at), Work(w, Delivery.Answer(kind, at))]
      ensures Stands(w, Answered(j, kind))
      ensures |log.entries| > 0 && log.entries[|log.entries| - 1] ==
        Entry(at, j.frameId, j.relayId, j.storeId, j.attempt, PostRow(kind), j.typ, j.body, j.replayOf)
    {
      hide Valid, Repr, Stands, LastN, EntryFromJob, Gated;
      NewestRow(log.entries, j, PostRow(kind), at);
      AppendAnswer(w, j, kind, at);
    }

    method AppendAnswer(w: nat, j: Job, kind: Kind, at: Time)
      requires Valid() && Stands(w, Posting(j)) && state.now <= at && Gated(j.storeId)
      modifies Repr()
      ensures Valid() && stores.items == old(stores.items) && state.now == at && Gated(j.storeId)
      ensures forall o :: o in Repr() ==> o in old(Repr()) || fresh(o)
      ensures labels == old(labels) + [AdvanceTo(at), Work(w, Delivery.Answer(kind, at))]
      ensures Stands(w, Answered(j, kind))
      ensures log.entries == LastN(old(log.entries) + [EntryFromJob(j, PostRow(kind), at)], cfg.logCap)
    {
      hide LastN, EntryFromJob, Steps, Initial, Leads;
      log.Append(EntryFromJob(j, PostRow(kind), at));
      ghost var t := AnswerEffect(cfg, state.(now := at), w, j, kind);
      Step(at, Work(w, Delivery.Answer(kind, at)), t);
    }

    method Tell(w: nat, j: Job, kind: Kind, now: Time)
      requires Valid() && Stands(w, Answered(j, kind)) && state.now <= now && Gated(j.storeId)
      modifies Repr()
      ensures Valid() && stores.items == old(stores.items) && state.now == now
      ensures forall o :: o in Repr() ==> o in old(Repr()) || fresh(o)
      ensures labels == old(labels) + [AdvanceTo(now), Work(w, Delivery.Tell)] && Stands(w, Settling(j, kind))
      // A success closes the breaker; any other outcome counts in Closed and reopens it from HalfOpen.
      ensures j.storeId in gates.view.breakers && j.storeId in old(gates.view).breakers
      ensures var b, o := gates.view.breakers[j.storeId], old(gates.view).breakers[j.storeId];
        && (kind == Success ==> b.state == C.Closed && b.failures == 0)
        && (kind != Success && o.state == C.Closed ==> b.failures == o.failures + 1)
        && (kind != Success && o.state == C.HalfOpen ==> b.state == C.Open && b.openedAt == now)
    {
      hide Objects, C.SuccessOf, C.FailureOf;
      ToldMeans(gates.view.breakers[j.storeId], cfg, kind, now);
      Report(j.storeId, kind, now);
      ghost var t := TellEffect(cfg, state.(now := now), w, j, kind);
      Step(now, Work(w, Delivery.Tell), t);
    }

    method Deliver(w: nat, j: Job, now: Time)
      requires Valid() && Stands(w, Settling(j, Success)) && state.now <= now
      modifies Repr()
      ensures Valid() && state.now == now
      ensures forall o :: o in Repr() ==> o in old(Repr()) || fresh(o)
      ensures labels == old(labels) + [AdvanceTo(now), Work(w, Delivery.Deliver)] && Stands(w, Finished(j.storeId))
    {
      ghost var t := DeliverEffect(cfg, state.(now := now), w, j);
      Step(now, Work(w, Delivery.Deliver), t);
    }

    method GiveUp(w: nat, j: Job, kind: Kind, at: Time)
      requires Valid() && Stands(w, Settling(j, kind)) && state.now <= at
      requires kind == Terminal || (kind == Retryable && P.Exhausted(cfg.policy, j.attempt))
      modifies Repr()
      ensures Valid() && state.now == at
      ensures forall o :: o in Repr() ==> o in old(Repr()) || fresh(o)
      ensures labels == old(labels) + [AdvanceTo(at), Work(w, Delivery.GiveUp(at))]
      ensures Stands(w, if kind == Terminal then Finished(j.storeId) else Noting(j, TerminalNote))
      ensures |dead.items| > 0 && dead.items[|dead.items| - 1] ==
        DeadItem(at, if kind == Terminal then TerminalStatus else AttemptsExhausted,
                 j.frameId, j.relayId, j.storeId, j.typ, j.attempt, j.body, j.replayOf)
    {
      hide Valid, Repr, Stands, LastN, DeadFromJob;
      var reason := if kind == Terminal then TerminalStatus else AttemptsExhausted;
      Newest(dead.items, j, reason, at);
      PushGivenUp(w, j, kind, reason, at);
    }

    method PushGivenUp(w: nat, j: Job, kind: Kind, reason: Reason, at: Time)
      requires Valid() && Stands(w, Settling(j, kind)) && state.now <= at
      requires kind == Terminal || (kind == Retryable && P.Exhausted(cfg.policy, j.attempt))
      requires reason == if kind == Terminal then TerminalStatus else AttemptsExhausted
      modifies Repr()
      ensures Valid() && state.now == at
      ensures forall o :: o in Repr() ==> o in old(Repr()) || fresh(o)
      ensures labels == old(labels) + [AdvanceTo(at), Work(w, Delivery.GiveUp(at))]
      ensures Stands(w, if kind == Terminal then Finished(j.storeId) else Noting(j, TerminalNote))
      ensures dead.items == LastN(old(dead.items) + [DeadFromJob(j, reason, at)], cfg.deadCap)
    {
      hide LastN, DeadFromJob, Steps, Initial, Leads, P.Exhausted;
      dead.Push(DeadFromJob(j, reason, at));
      ghost var t := GiveUpEffect(cfg, state.(now := at), w, j, kind);
      Step(at, Work(w, Delivery.GiveUp(at)), t);
    }

    method Retry(w: nat, j: Job, d: Store, u: real, at: Time) returns (delay: Time)
      requires Valid() && Stands(w, Settling(j, Retryable)) && state.now <= at && 0.0 <= u < 1.0
      requires !P.Exhausted(cfg.policy, j.attempt) && Serves(j, d)
      modifies Repr()
      ensures Valid() && state.now == at
      ensures forall o :: o in Repr() ==> o in old(Repr()) || fresh(o)
      ensures labels == old(labels) + [AdvanceTo(at), Work(w, Delivery.Retry(at, u))] && Stands(w, Finished(j.storeId))
      // The delay is u times the capped exponential, in whole nanoseconds, and the job is due after it.
      ensures var m := Min(cfg.policy.cap, cfg.policy.base * P2(Min(Max(j.attempt, 1) - 1, 30)));
        delay as real <= u * m as real < delay as real + 1.0
      ensures I.Waiting(broker.view, j.storeId) ==
        old(I.Waiting(broker.view, j.storeId)) + multiset{j.(notBefore := at + delay)}
    {
      hide Valid, Objects, Repr, P2, P.Delay;
      DelayNow(j, u);
      delay := P.Delay(cfg.policy, j.attempt, u);
      PutBackLater(w, j, d, u, at, delay);
    }

    method PutBackLater(w: nat, j: Job, d: Store, u: real, at: Time, delay: Time)
      requires Valid() && Stands(w, Settling(j, Retryable)) && state.now <= at && 0.0 <= u < 1.0
      requires !P.Exhausted(cfg.policy, j.attempt) && Serves(j, d) && delay == P.Delay(cfg.policy, j.attempt, u)
      modifies Repr()
      ensures Valid() && state.now == at
      ensures forall o :: o in Repr() ==> o in old(Repr()) || fresh(o)
      ensures labels == old(labels) + [AdvanceTo(at), Work(w, Delivery.Retry(at, u))] && Stands(w, Finished(j.storeId))
      ensures I.Waiting(broker.view, j.storeId) ==
        old(I.Waiting(broker.view, j.storeId)) + multiset{j.(notBefore := at + delay)}
    {
      hide Objects, Repr, P.Delay, Retried, I.Waiting, B.EnqueueView;
      var k := j.(notBefore := at + delay);
      RetriedIs(cfg, j, at, u);
      assert Retried(cfg, j, at, u) == k;
      I.EnqueueAdds(broker.view, k, d);
      PutBack(k, d);
      assert I.Waiting(broker.view, j.storeId) == old(I.Waiting(broker.view, j.storeId)) + multiset{k};
      ghost var t := RetryEffect(cfg, state.(now := at), w, j, u);
      Step(at, Work(w, Delivery.Retry(at, u)), t);
    }

    lemma DelayNow(j: Job, u: real)
      requires Valid() && 0.0 <= u < 1.0
      ensures var m := Min(cfg.policy.cap, cfg.policy.base * P2(Min(Max(j.attempt, 1) - 1, 30)));
        P.Delay(cfg.policy, j.attempt, u) as real <= u * m as real < P.Delay(cfg.policy, j.attempt, u) as real + 1.0
    {
      P.DelayIs(cfg.policy, j.attempt, u);
    }

    method Release(w: nat, id: Id, now: Time)
      requires Valid() && Stands(w, Finished(id)) && state.now <= now
      modifies Repr()
      ensures Valid() && state.now == now
      ensures forall o :: o in Repr() ==> o in old(Repr()) || fresh(o)
      ensures labels == old(labels) + [AdvanceTo(now), Work(w, Delivery.Release)] && Stands(w, Idle)
    {
      hide Objects, Repr;
      FreeSlot(id);
      ghost var t := ReleaseEffect(cfg, state.(now := now), w, id);
      Step(now, Work(w, Delivery.Release), t);
    }

    // ---------- handle and tick ----------

    /** The store is missing or disabled. */
    method Refuse(w: nat, j: Job, clk: nat -> Time)
      requires Valid() && Stands(w, Condemned(j)) && Ticking(clk) && state.now == clk(1)
      modifies Repr()
      ensures Valid() && Stands(w, Finished(j.storeId)) && state.now <= clk(9)
      ensures forall o :: o in Repr() ==> o in old(Repr()) || fresh(o)
      ensures labels == old(labels) + Refusing(w, clk)
    {
      hide Valid, Repr;
      Bury(w, j, clk(2));
      Note(w, j, TerminalNote, clk(3));
    }

    /** Ensure and Allow. */
    method Ask(w: nat, j: Job, d: Store, clk: nat -> Time) returns (allowed: bool)
      requires Valid() && Stands(w, Checked(j)) && Ticking(clk) && state.now == clk(1) && Serves(j, d)
      modifies Repr()
      ensures Valid() && stores.items == old(stores.items) && Gated(j.storeId) && state.now == clk(3)
      ensures forall o :: o in Repr() ==> o in old(Repr()) || fresh(o)
      ensures Stands(w, if allowed then Admitted(j) else Deferred(j, 200 * MILLISECOND, SkippedOpen))
      ensures labels == old(labels) + Asking(w, j.storeId, clk)
    {
      hide Valid, Repr;
      EnsureGates(w, j, d, clk(2));
      allowed := Allow(w, j, clk(3));
    }

    /** Back into the queue without an attempt, and a journal row. */
    method Postpone(w: nat, j: Job, d: Store, wait: Time, row: RowKind, clk: nat -> Time, k: nat)
      requires Valid() && Stands(w, Deferred(j, wait, row)) && Ticking(clk) && state.now <= clk(k) && k <= 5
      requires Serves(j, d)
      modifies Repr()
      ensures Valid() && Stands(w, Finished(j.storeId)) && state.now <= clk(9)
      ensures forall o :: o in Repr() ==> o in old(Repr()) || fresh(o)
      ensures labels == old(labels) + Postponing(w, clk, k)
    {
      hide Valid, Repr;
      Requeue(w, j, d, wait, row, clk(k));
      Note(w, j, row, clk(k + 1));
    }

    /** The POST has ended as kind. */
    method Post(w: nat, j: Job, kind: Kind, clk: nat -> Time)
      requires Valid() && Stands(w, Posting(j)) && Ticking(clk) && state.now == clk(4) && Gated(j.storeId)
      modifies Repr()
      ensures Valid() && stores.items == old(stores.items) && Stands(w, Settling(j, kind)) && state.now == clk(6)
      ensures forall o :: o in Repr() ==> o in old(Repr()) || fresh(o)
      ensures labels == old(labels) + Posted(w, clk, kind)
    {
      hide Valid, Repr;
      Answer(w, j, kind, clk(5));
      Tell(w, j, kind, clk(6));
    }

    /** What the outcome of the POST asks for. */
    method Settle(w: nat, j: Job, d: Store, kind: Kind, u: real, clk: nat -> Time) returns (e: Exit)
      requires Valid() && Stands(w, Settling(j, kind)) && Ticking(clk) && state.now == clk(6) && 0.0 <= u < 1.0
      requires Serves(j, d)
      modifies Repr()
      ensures Valid() && Stands(w, Finished(j.storeId)) && state.now <= clk(9)
      ensures forall o :: o in Repr() ==> o in old(Repr()) || fresh(o)
      ensures labels == old(labels) + Settled(w, clk, u, e)
      ensures e == match kind
        case Success => Succeeded
        case Terminal => TurnedDown
        case Retryable => if j.attempt >= cfg.policy.maxAttempts then OutOfAttempts else WillRetry
    {
      hide Valid, Repr;
      match kind
      case Success =>
        Deliver(w, j, clk(7));
        e := Succeeded;
      case Retryable =>
        if P.Exhausted(cfg.policy, j.attempt) {
          GiveUp(w, j, kind, clk(7));
          Note(w, j, TerminalNote, clk(8));
          e := OutOfAttempts;
        } else {
          var delay := Retry(w, j, d, u, clk(7));
          e := WillRetry;
        }
      case Terminal =>
        GiveUp(w, j, kind, clk(7));
        e := TurnedDown;
    }

    /** The job is through the breaker: the bucket, the POST, what follows from its outcome. */
    method Attempt(w: nat, j: Job, d: Store, clk: nat -> Time, kind: Kind, u: real) returns (e: Exit)
      requires Valid() && Stands(w, Admitted(j)) && Ticking(clk) && state.now == clk(3) && 0.0 <= u < 1.0
      requires Serves(j, d) && Gated(j.storeId)
      modifies Repr()
      ensures Valid() && Stands(w, Finished(j.storeId)) && state.now <= clk(9)
      ensures forall o :: o in Repr() ==> o in old(Repr()) || fresh(o)
      ensures !e.Unavailable? && !e.BreakerOpen? && labels == old(labels) + Attempting(w, clk, kind, u, e)
    {
      hide Valid, Repr, Postponing, Posted, Settled, Gated;
      ghost var before := labels;
      var wait := Take(w, j, clk(4));
      if wait > 0 {
        Postpone(w, j, d, wait, RateDelayed, clk, 5);
        e := RateLimited;
        Glued(before, [AdvanceTo(clk(4)), Work(w, Delivery.Take)], Postponing(w, clk, 5));
      } else {
        var k := j.(attempt := j.attempt + 1);
        Post(w, k, kind, clk);
        e := Settle(w, k, d, kind, u, clk);
        Glued(before, [AdvanceTo(clk(4)), Work(w, Delivery.Take)], Posted(w, clk, kind));
        Glued(before, [AdvanceTo(clk(4)), Work(w, Delivery.Take)] + Posted(w, clk, kind), Settled(w, clk, u, e));
        Glued([AdvanceTo(clk(4)), Work(w, Delivery.Take)], Posted(w, clk, kind), Settled(w, clk, u, e));
      }
    }

    /** The store is there: the breaker, and what follows from its decision. */
    method Proceed(w: nat, j: Job, d: Store, clk: nat -> Time, kind: Kind, u: real) returns (e: Exit)
      requires Valid() && Stands(w, Checked(j)) && Ticking(clk) && state.now == clk(1) && 0.0 <= u < 1.0 && Serves(j, d)
      modifies Repr()
      ensures Valid() && Stands(w, Finished(j.storeId)) && state.now <= clk(9)
      ensures forall o :: o in Repr() ==> o in old(Repr()) || fresh(o)
      ensures !e.Unavailable? && labels == old(labels) + Proceeding(w, j.storeId, clk, kind, u, e)
    {
      hide Valid, Repr, Asking, Postponing, Attempting, Gated;
      ghost var before := labels;
      var allowed := Ask(w, j, d, clk);
      if !allowed {
        Postpone(w, j, d, 200 * MILLISECOND, SkippedOpen, clk, 4);
        e := BreakerOpen;
        Glued(before, Asking(w, j.storeId, clk), Postponing(w, clk, 4));
      } else {
        e := Attempt(w, j, d, clk, kind, u);
        Glued(before, Asking(w, j.storeId, clk), Attempting(w, clk, kind, u, e));
      }
    }

    /** handle: kind is how the POST ends if one is sent, u the random number of the delay. */
    method Handle(w: nat, j: Job, clk: nat -> Time, kind: Kind, u: real) returns (e: Exit)
      requires Valid() && Stands(w, Leased(j)) && Ticking(clk) && state.now == clk(0) && 0.0 <= u < 1.0
      modifies Repr()
      ensures Valid() && Stands(w, Finished(j.storeId)) && state.now <= clk(9)
      ensures forall o :: o in Repr() ==> o in old(Repr()) || fresh(o)
      ensures labels == old(labels) + PathOf(w, j.storeId, clk, kind, u, e)
    {
      hide Valid, Repr, Refusing, Asking, Postponing, Attempting, Gated;
      ghost var before := labels;
      var d := LookUp(w, j, clk(1));
      if d.None? {
        Refuse(w, j, clk);
        e := Unavailable;
        Glued(before, [AdvanceTo(clk(1)), Work(w, Delivery.LookUp)], Refusing(w, clk));
      } else {
        e := Proceed(w, j, d.value, clk, kind, u);
        Glued(before, [AdvanceTo(clk(1)), Work(w, Delivery.LookUp)], Proceeding(w, j.storeId, clk, kind, u, e));
      }
    }

    /** tick: one job from Lease to Release, or nothing due. */
    method Tick(w: nat, clk: nat -> Time, kind: Kind, u: real) returns (r: Option<Job>, e: Exit)
      requires Valid() && Stands(w, Idle) && Ticking(clk) && state.now <= clk(0) && 0.0 <= u < 1.0
      modifies Repr()
      ensures Valid() && Stands(w, Idle)
      ensures forall o :: o in Repr() ==> o in old(Repr()) || fresh(o)
      ensures r.None? ==> labels == old(labels) && state == old(state) && B.NothingDue(broker.view, clk(0))
      ensures r.Some? ==> labels == old(labels) + OneTick(w, r.value, clk, kind, u, e)
    {
      hide Valid, Repr, PathOf;
      e := Unavailable;
      ghost var before := labels;
      r := Lease(w, clk(0));
      if r.Some? {
        e := Handle(w, r.value, clk, kind, u);
        Release(w, r.value.storeId, clk(9));
        var lease, path := Dated(clk(0), Work(w, Delivery.Lease(r.value))), PathOf(w, r.value.storeId, clk, kind, u, e);
        Glued(before, lease, path);
        Glued(before, lease + path, Dated(clk(9), Work(w, Delivery.Release)));
      }
    }

    // ---------- Store administration and ingest ----------

    /** id is the freshly generated store id. */
    method CreateStore(id: Id, c: CreateInput, now: Time) returns (r: CreateResult)
      requires Valid() && state.now <= now && id !in state.stores
      modifies this, stores
      ensures Valid() && Repr() == old(Repr())
      ensures r == if Refusal(c).Some? then CreateResult.Rejected(Refusal(c).value) else Created(StoreOf(id, c))
      ensures r.Rejected? ==> labels == old(labels) && state == old(state)
      ensures r.Created? ==>
        labels == old(labels) + Dated(now, Delivery.CreateStore(StoreOf(id, c))) && id in stores.items
    {
      hide B.Broker.Valid, G.Registry.Valid, StoreOf, Refusal, Leads;
      r := stores.Create(id, c);
      if r.Created? {
        CreatedIsNormal(id, c);
        ghost var t := state.(now := now, stores := state.stores[id := StoreOf(id, c)]);
        assert Steps(cfg, state.(now := now), Delivery.CreateStore(StoreOf(id, c)), t);
        Step(now, Delivery.CreateStore(StoreOf(id, c)), t);
      }
    }

    method SetEnabled(id: Id, enabled: bool, now: Time) returns (found: bool)
      requires Valid() && state.now <= now
      modifies this, stores
      ensures Valid() && Repr() == old(Repr()) && (found <==> id in old(stores.items))
      ensures !found ==> labels == old(labels) && state == old(state)
      ensures found ==> labels == old(labels) + Dated(now, Delivery.SetEnabled(id, enabled))
    {
      hide B.Broker.Valid, G.Registry.Valid, Leads;
      var d := stores.SetEnabled(id, enabled);
      found := d.Some?;
      if found {
        ghost var t := state.(now := now, stores := state.stores[id := state.stores[id].(enabled := enabled)]);
        assert Steps(cfg, state.(now := now), Delivery.SetEnabled(id, enabled), t);
        Step(now, Delivery.SetEnabled(id, enabled), t);
      }
    }

    /** p works on this engine's broker and stores. */
    ghost predicate Feeds(p: I.Pipeline) {
      p.broker == broker && p.stores == stores
    }

    /** The pipeline's Handle: newFrame and relayIds are the ids the generator hands out during this
        call, which nobody has used; a body that parses is not empty. */
    method Accept(p: I.Pipeline, r: I.Request, at: I.Readings, newFrame: Id, relayIds: nat -> Id)
      returns (reply: I.Reply, ghost plan: seq<PlanItem>)
      requires Valid() && p.Valid() && Feeds(p) && at.Ordered() && p.nonces.clock <= at.nonceGc
      requires p.idem.clock <= at.idemGc
      requires state.now <= at.idemNow && newFrame !in state.hist.accepted && (r.parsed.Frame? ==> |r.body| > 0)
      requires forall i, k :: 0 <= i < k ==> relayIds(i) != relayIds(k)
      requires forall i: nat :: relayIds(i) !in state.hist.births
      modifies Repr(), p.nonces, p.idem
      ensures Valid() && p.Valid()
      ensures forall o :: o in Repr() ==> o in old(Repr()) || fresh(o)
      ensures reply.code != 202 ==> labels == old(labels) && state == old(state)
      ensures reply.code == 202 ==> r.parsed.Frame? && I.PlanFor(plan, stores.items, r.parsed.typ)
      ensures reply.code == 202 ==>
        labels == old(labels) + [AdvanceTo(at.idemNow)]
                  + Accepting(newFrame, Payload(r.parsed.typ, r.body), plan, at.now)
    {
      hide Objects, Repr, I.Pipeline.Valid, I.PlanFor, I.Relayed, Leads, Accepting;
      reply, plan := Handled(p, r, at, newFrame, relayIds);
      if reply.code == 202 {
        PlanIsFresh(state, plan, r.parsed.typ, relayIds);
        ghost var t := Accepted(cfg, state.(now := at.idemNow), newFrame, Payload(r.parsed.typ, r.body), plan, at.now);
        Follow(at.idemNow, Accepting(newFrame, Payload(r.parsed.typ, r.body), plan, at.now), t);
      }
    }

    /** What Handle does to the engine's objects. */
    method Handled(p: I.Pipeline, r: I.Request, at: I.Readings, newFrame: Id, relayIds: nat -> Id)
      returns (reply: I.Reply, ghost plan: seq<PlanItem>)
      requires Objects() && p.Valid() && Feeds(p) && at.Ordered() && p.nonces.clock <= at.nonceGc
      requires p.idem.clock <= at.idemGc
      modifies Repr(), p.nonces, p.idem
      ensures Objects() && p.Valid() && state == old(state) && labels == old(labels)
      ensures stores.items == old(stores.items)
      ensures gates.view == old(gates.view) && dead.items == old(dead.items) && log.entries == old(log.entries)
      ensures forall o :: o in Repr() ==> o in old(Repr()) || fresh(o)
      ensures reply.code != 202 ==> broker.view == old(broker.view)
      ensures reply.code == 202 ==>
        && r.parsed.Frame? && ValidType(Trim(r.parsed.typ)) && I.PlanFor(plan, stores.items, r.parsed.typ)
        && (forall i :: 0 <= i < |plan| ==> plan[i].relayId == relayIds(i))
        && broker.view == I.Relayed(old(broker.view), plan, stores.items, newFrame, r.parsed.typ, r.body, at.now)
    {
      hide Objects, I.Pipeline.Valid, I.PlanFor, I.Relayed;
      reply, plan := HandledAlone(p, r, at, newFrame, relayIds);
    }

    method HandledAlone(p: I.Pipeline, r: I.Request, at: I.Readings, newFrame: Id, relayIds: nat -> Id)
      returns (reply: I.Reply, ghost plan: seq<PlanItem>)
      requires Objects() && p.Valid() && Feeds(p) && at.Ordered() && p.nonces.clock <= at.nonceGc
      requires p.idem.clock <= at.idemGc
      modifies broker, broker.dests.Values, broker.heaps, broker.cells, p.nonces, p.idem
      ensures Objects() && p.Valid() && state == old(state) && labels == old(labels)
      ensures stores.items == old(stores.items)
      ensures gates.view == old(gates.view) && dead.items == old(dead.items) && log.entries == old(log.entries)
      ensures gates.breakers == old(gates.breakers) && gates.buckets == old(gates.buckets)
      ensures fresh(broker.dests.Values - old(broker.dests.Values))
      ensures fresh(broker.heaps - old(broker.heaps)) && fresh(broker.cells - old(broker.cells))
      ensures reply.code != 202 ==> broker.view == old(broker.view)
      ensures reply.code == 202 ==>
        && r.parsed.Frame? && ValidType(Trim(r.parsed.typ)) && I.PlanFor(plan, stores.items, r.parsed.typ)
        && (forall i :: 0 <= i < |plan| ==> plan[i].relayId == relayIds(i))
        && broker.view == I.Relayed(old(broker.view), plan, stores.items, newFrame, r.parsed.typ, r.body, at.now)
    {
      hide B.Broker.Valid, G.Registry.Valid, Registry.Valid, I.Relayed, I.PlanFor, I.EarlyRefusal, ValidType, Trim,
        I.Admission.Live, I.Admission.Answers, I.OutcomeOf, GoodConfig;
      reply, plan := p.Handle(r, at, newFrame, relayIds);
    }

    // ---------- App.Replay ----------

    method DropDead(of: Id)
      requires Objects()
      modifies dead
      ensures Objects() && dead.items == L.Without(old(dead.items), of)
    {
      var it := dead.Remove(of);
    }

    method RequeueDead(of: Id, newId: Id, it: DeadItem, j: Job, now: Time)
      requires Valid() && state.now <= now && newId !in state.hist.births
      requires L.LastAt(dead.items, of).Some? && it == dead.items[L.LastAt(dead.items, of).value]
      requires JobFromDead(it, newId, now) == Some(j) && j.storeId in stores.items
      modifies Repr()
      ensures Valid() && state.now == now && of in state.removals
      ensures forall o :: o in Repr() ==> o in old(Repr()) || fresh(o)
      ensures labels == old(labels) + Dated(now, ReplayDead(of, newId, now)) && state.workers == old(state).workers
      ensures I.Waiting(broker.view, it.storeId) == old(I.Waiting(broker.view, it.storeId))
        + multiset{Job(it.frameId, newId, it.storeId, it.typ, it.body, 0, now, now, Some(of))}
    {
      hide Objects, Repr;
      I.EnqueueAdds(broker.view, j, stores.items[j.storeId]);
      PutBack(j, stores.items[j.storeId]);
      ghost var t := ReplayDeadEffect(cfg, state.(now := now), of, newId, it, j);
      Step(now, ReplayDead(of, newId, now), t);
    }

    method RemoveReplayed(of: Id, now: Time)
      requires Valid() && state.now == now && of in state.removals
      modifies Repr()
      ensures Valid()
      ensures forall o :: o in Repr() ==> o in old(Repr()) || fresh(o)
      ensures labels == old(labels) + Dated(now, RemoveDead(of)) && state.workers == old(state).workers
    {
      hide Objects;
      DropDead(of);
      ghost var t := RemoveDeadEffect(cfg, state.(now := now), of);
      Step(now, RemoveDead(of), t);
    }

    method RequeueEntry(of: Id, newId: Id, e: Entry, j: Job, now: Time)
      requires Valid() && state.now <= now && newId !in state.hist.births
      requires L.LastAt(dead.items, of).None? && L.LastEntry(log.entries, of) == Some(e)
      requires JobFromEntry(e, newId, now) == Some(j) && j.storeId in stores.items
      modifies Repr()
      ensures Valid()
      ensures forall o :: o in Repr() ==> o in old(Repr()) || fresh(o)
      ensures labels == old(labels) + Dated(now, ReplayJournal(of, newId, now)) && state.workers == old(state).workers
      ensures I.Waiting(broker.view, e.storeId) == old(I.Waiting(broker.view, e.storeId))
        + multiset{Job(e.frameId, newId, e.storeId, e.typ, e.body, 0, now, now, Some(of))}
    {
      hide Objects, Repr;
      I.EnqueueAdds(broker.view, j, stores.items[j.storeId]);
      PutBack(j, stores.items[j.storeId]);
      ghost var t := ReplayJournalEffect(cfg, state.(now := now), of, newId, e, j);
      Step(now, ReplayJournal(of, newId, now), t);
    }

    method FindDead(of: Id) returns (it: Option<DeadItem>)
      requires Valid()
      ensures Valid() && Repr() == old(Repr())
      ensures it == match L.LastAt(dead.items, of) case None => None case Some(i) => Some(dead.items[i])
    {
      it := dead.Get(of);
    }

    method FindEntry(of: Id) returns (e: Option<Entry>)
      requires Valid()
      ensures Valid() && Repr() == old(Repr())
      ensures e == L.LastEntry(log.entries, of)
    {
      e := log.Get(of);
    }

    /** What a replay of this relay would come to now. */
    ghost function Outlook(of: Id): ReplayResult
      reads dead, log, stores
    {
      ReplayOutcome(SourceOf(dead.items, log.entries, of), stores.items)
    }

    /** newId is the id the generator hands out. */
    method Replay(of: Id, newId: Id, now: Time) returns (r: ReplayResult)
      requires Valid() && state.now <= now && newId !in state.hist.births
      modifies Repr()
      ensures r == old(Outlook(of))
      // A dead letter of the relay decides, the last one; without any, the last journal row.
      ensures forall i :: 0 <= i < |old(dead.items)| && old(dead.items)[i].relayId == of
                          && (forall k :: i < k < |old(dead.items)| ==> old(dead.items)[k].relayId != of) ==>
        r == if |old(dead.items)[i].body| == 0 then NoBody
             else if old(dead.items)[i].storeId !in old(stores.items) then NotFound else Replayed(true)
      ensures (forall i :: 0 <= i < |old(dead.items)| ==> old(dead.items)[i].relayId != of) ==>
        forall i :: 0 <= i < |old(log.entries)| && old(log.entries)[i].relayId == of
                    && (forall k :: i < k < |old(log.entries)| ==> old(log.entries)[k].relayId != of) ==>
          r == if |old(log.entries)[i].body| == 0 then NoBody
               else if old(log.entries)[i].storeId !in old(stores.items) then NotFound else Replayed(false)
      ensures (forall i :: 0 <= i < |old(dead.items)| ==> old(dead.items)[i].relayId != of) ==>
        (forall i :: 0 <= i < |old(log.entries)| ==> old(log.entries)[i].relayId != of) ==> r == NotFound
      ensures Valid()
      ensures forall o :: o in Repr() ==> o in old(Repr()) || fresh(o)
      ensures labels == old(labels) + ReplayPath(r, of, newId, now) && state.workers == old(state).workers
    {
      hide Valid, Repr, SourceOf, ReplayOutcome, ReplayPath;
      OutcomeIs(dead.items, log.entries, stores.items, of);
      ghost var ds, es, ss := dead.items, log.entries, stores.items;
      assert Outlook(of) == ReplayOutcome(SourceOf(ds, es, of), ss);
      r := TakeUp(of, newId, now);
      forall i
        ensures LastDead(ds, of, i) <==>
          0 <= i < |ds| && ds[i].relayId == of && forall k :: i < k < |ds| ==> ds[k].relayId != of
        ensures LastRow(es, of, i) <==>
          0 <= i < |es| && es[i].relayId == of && forall k :: i < k < |es| ==> es[k].relayId != of
      {
      }
    }

    /** Where the body comes from, and what follows. */
    method TakeUp(of: Id, newId: Id, now: Time) returns (r: ReplayResult)
      requires Valid() && state.now <= now && newId !in state.hist.births
      modifies Repr()
      ensures r == old(Outlook(of))
      ensures Valid()
      ensures forall o :: o in Repr() ==> o in old(Repr()) || fresh(o)
      ensures labels == old(labels) + ReplayPath(r, of, newId, now) && state.workers == old(state).workers
    {
      hide Valid, Repr;
      var it := FindDead(of);
      if it.Some? {
        var j := JobFromDead(it.value, newId, now);
        if j.None? {
          return NoBody;
        }
        if j.value.storeId !in stores.items {
          return NotFound;
        }
        RequeueDead(of, newId, it.value, j.value, now);
        RemoveReplayed(of, now);
        return Replayed(true);
      }
      var e := FindEntry(of);
      if e.None? {
        return NotFound;
      }
      var j := JobFromEntry(e.value, newId, now);
      if j.None? {
        return NoBody;
      }
      if j.value.storeId !in stores.items {
        return NotFound;
      }
      RequeueEntry(of, newId, e.value, j.value, now);
      r := Replayed(false);
    }
  }

  // ---------- What the step system promises holds of the objects ----------

  /** Whatever steps an engine has taken: its in-flight counters are its workers, within the limits;
      every relay is in one place; no replay lacks a body. */
  lemma EngineIsSafe(e: Engine, id: Id, r: Id)
    requires e.Valid()
    ensures id in e.broker.dests ==>
      e.broker.dests[id].inFlight == A.Count(e.state.workers, A.OnStore(id)) <= e.broker.dests[id].maxFlight
    ensures K.Tally(e.state, r) == if r in e.state.hist.births then 1 else 0
    ensures forall i :: 0 <= i < |e.dead.items| ==> |e.dead.items[i].body| > 0
  {
    var states := AsRun(e.cfg, e.start, e.labels, e.state);
    var n := |e.labels|;
    A.AccountsHold(e.cfg, states, e.labels, n);
    assert id in e.broker.dests ==> A.QueueOk(e.state, id) && e.broker.dests[id].Shows(e.broker.view[id]);
    K.Conservation(e.cfg, states, e.labels, n, r);
    forall i | 0 <= i < |e.dead.items|
      ensures |e.dead.items[i].body| > 0
    {
      V.ReplayHasBody(e.cfg, states, e.labels, n, i, "", 0);
    }
  }
}
