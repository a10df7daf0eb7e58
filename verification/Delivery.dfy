/** The delivery engine as a step system: the workers of internal/worker, each a phase machine,
    interleaved over the broker, the gates, the dead-letter queue and the journal, together with
    ingest, operator replay, store administration and the clock.

    One step is one critical section of the program: one method call under one object's mutex.
    A step that stamps a time carries the clock reading it uses, `readAt`, which may be older
    than the clock when the step takes effect. */
module Delivery {
  import opened Common
  import opened Jobs
  import opened Routing
  import B = Brokers
  import C = Breakers
  import R = Buckets
  import G = Gates
  import L = Lists
  import P = Backoff

  datatype Config = Config(policy: P.Policy, breaker: C.Settings, deadCap: nat, logCap: nat)

  predicate GoodConfig(c: Config) {
    P.Valid(c.policy) && C.Normal(c.breaker) && c.deadCap >= 1 && c.logCap >= 1
  }

  /** Where a worker stands in tick and handle. */
  datatype Phase =
    | Idle
    | Leased(job: Job)                          // Lease returned this job
    | Condemned(job: Job)                       // its store is missing or disabled
    | Checked(job: Job)                         // its store was found enabled
    | Admitted(job: Job)                        // the breaker let it through
    | Deferred(job: Job, wait: Time, row: RowKind)  // the breaker or the bucket did not
    | Posting(job: Job)                         // the attempt is counted, the request is out
    | Answered(job: Job, kind: Kind)            // the attempt is in the journal
    | Settling(job: Job, kind: Kind)            // the breaker has been told
    | Noting(job: Job, row: RowKind)            // the job is elsewhere; one journal row is due
    | Finished(store: Id)                       // only Release is left
  {
    /** The job this worker alone is responsible for. */
    function Held(): Option<Job> {
      if Idle? || Noting? || Finished? then None else Some(job)
    }

    /** The store whose in-flight slot this worker occupies. */
    function Slot(): Option<Id> {
      if Idle? then None else if Finished? then Some(store) else Some(job.storeId)
    }
  }

  datatype Payload = Payload(typ: string, body: Bytes)

  /** How a relay id came to be: of which frame, for which store, replaying which relay. */
  datatype Birth = Birth(frameId: Id, storeId: Id, parent: Option<Id>, rank: nat)

  /** What happened so far. Steps read it only to see that an id is new, and for the payload of a frame
      being relayed. */
  datatype History = History(
    accepted: map<Id, Payload>,    // frames accepted at ingest
    births: map<Id, Birth>,        // relay ids minted
    delivered: multiset<Id>,       // relays answered with success
    evicted: multiset<Id>,         // relays pushed out of the full dead-letter queue
    consumed: multiset<Id>,        // dead letters taken out by a replay
    posts: map<Id, seq<nat>>,      // the attempt numbers POSTed, per relay
    rows: map<Id, seq<nat>>,       // the attempt numbers journaled as POSTed, per relay
    slept: map<Id, Time>)          // the backoff delays, added up, per relay

  function PostsOf(h: History, r: Id): seq<nat> {
    if r in h.posts then h.posts[r] else []
  }

  function RowsOf(h: History, r: Id): seq<nat> {
    if r in h.rows then h.rows[r] else []
  }

  function SleptOf(h: History, r: Id): Time {
    if r in h.slept then h.slept[r] else 0
  }

  datatype Sys = Sys(
    now: Time,
    stores: map<Id, Store>,
    broker: B.View,
    gates: G.View,
    workers: seq<Phase>,
    dead: seq<DeadItem>,
    journal: seq<Entry>,
    plans: map<Id, set<Id>>,       // per accepted frame, the stores of its plan still to get their relay
    removals: multiset<Id>,        // replays that have enqueued and not yet called Remove
    hist: History)

  datatype WorkerStep =
    | Lease(job: Job)
    | LookUp
    | Bury(readAt: Time)
    | Allow
    | Take
    | Requeue(readAt: Time)
    | Answer(kind: Kind, readAt: Time)
    | Tell
    | Deliver                            // handle returns after a success
    | GiveUp(readAt: Time)               // terminal, or attempts exhausted: push to the dead letters
    | Retry(readAt: Time, u: real)       // back into the queue, u the random number of the delay
    | Note(readAt: Time)
    | Release

  datatype Label =
    | AdvanceTo(to: Time)
    | CreateStore(d: Store)
    | SetEnabled(id: Id, enabled: bool)
    | OpenQueue(id: Id)
    | OpenGates(w: nat, id: Id)                                  // gates.Ensure, as worker w calls it just before Allow
    | Observe(id: Id)                                            // Breaker.Snapshot, as the API and the saver call it
    | AcceptFrame(frame: Id, payload: Payload)                   // a remembered frame gets its plan: Registry.Matching
    | RelayFrame(frame: Id, store: Id, relay: Id, readAt: Time)  // one item of that plan is enqueued
    | ReplayDead(of: Id, relay: Id, readAt: Time)
    | ReplayJournal(of: Id, relay: Id, readAt: Time)
    | RemoveDead(of: Id)                                         // the Remove that ends a replay
    | Work(w: nat, step: WorkerStep)

  // ---------- Which steps are possible ----------

  ghost predicate WorkerEnabled(c: Config, st: Sys, p: Phase, s: WorkerStep) {
    match s
    case Lease(j) => p.Idle? && B.Leasable(st.broker, st.now, j.storeId, j)
    case LookUp => p.Leased?
    case Bury(at) => p.Condemned? && at <= st.now
    case Allow => p.Checked? && p.job.storeId in st.stores
    case Take => p.Admitted? && p.job.storeId in st.gates.buckets && st.gates.buckets[p.job.storeId].rate > 0.0
    case Requeue(at) => p.Deferred? && p.job.storeId in st.stores && at <= st.now
    case Answer(_, at) => p.Posting? && at <= st.now
    case Tell => p.Answered? && p.job.storeId in st.gates.breakers
    case Deliver => p.Settling? && p.kind == Success
    case GiveUp(at) =>
      && p.Settling? && at <= st.now
      && (p.kind == Terminal || (p.kind == Retryable && P.Exhausted(c.policy, p.job.attempt)))
    case Retry(at, u) =>
      && p.Settling? && p.kind == Retryable && !P.Exhausted(c.policy, p.job.attempt)
      && p.job.storeId in st.stores && at <= st.now && 0.0 <= u < 1.0
    case Note(at) => p.Noting? && at <= st.now
    case Release => p.Finished?
  }

  ghost predicate Enabled(c: Config, st: Sys, l: Label) {
    match l
    case AdvanceTo(t) => st.now <= t
    case CreateStore(d) => d.id !in st.stores && Normalized(d)
    case SetEnabled(id, _) => id in st.stores
    case OpenQueue(id) => id in st.stores
    case OpenGates(w, id) =>
      id in st.stores && w < |st.workers| && st.workers[w].Checked? && st.workers[w].job.storeId == id
    case Observe(id) => id in st.gates.breakers
    case AcceptFrame(f, p) => f !in st.hist.accepted && |p.body| > 0 && ValidType(Trim(p.typ))
    case RelayFrame(f, s, r, at) =>
      && f in st.hist.accepted && f in st.plans && s in st.plans[f]
      && s in st.stores && r !in st.hist.births && at <= st.now
    case ReplayDead(of, r, at) =>
      && r !in st.hist.births && at <= st.now && L.LastAt(st.dead, of).Some?
      && var it := st.dead[L.LastAt(st.dead, of).value]; |it.body| > 0 && it.storeId in st.stores
    case ReplayJournal(of, r, at) =>
      && r !in st.hist.births && at <= st.now && L.LastAt(st.dead, of).None? && L.LastEntry(st.journal, of).Some?
      && var e := L.LastEntry(st.journal, of).value; |e.body| > 0 && e.storeId in st.stores
    case RemoveDead(of) => of in st.removals
    case Work(w, s) => w < |st.workers| && WorkerEnabled(c, st, st.workers[w], s)
  }

  // ---------- What the steps do ----------

  /** The stores a type goes to. */
  function PlanOf(stores: map<Id, Store>, typ: string): set<Id> {
    set id | id in stores && stores[id].Matches(typ)
  }

  function Enqueued(st: Sys, j: Job): B.View
    requires j.storeId in st.stores
  {
    B.EnqueueView(st.broker, j, st.stores[j.storeId].ordered, st.stores[j.storeId].maxInFlight)
  }

  function Journaled(c: Config, st: Sys, e: Entry): seq<Entry> {
    LastN(st.journal + [e], c.logCap)
  }

  /** A freshly minted relay enters its store's queue. */
  function Minted(st: Sys, j: Job): Sys
    requires j.storeId in st.stores
  {
    var h := st.hist;
    var r := j.relayId;
    st.(broker := Enqueued(st, j),
        hist := h.(births := h.births[r := Birth(j.frameId, j.storeId, j.replayOf, |h.births|)],
                   posts := h.posts[r := []], rows := h.rows[r := []], slept := h.slept[r := 0]))
  }

  function At(st: Sys, w: nat, p: Phase): Sys
    requires w < |st.workers|
  {
    st.(workers := st.workers[w := p])
  }

  function Buried(c: Config, st: Sys, j: Job, reason: Reason, at: Time): Sys {
    var it := DeadFromJob(j, reason, at);
    st.(dead := LastN(st.dead + [it], c.deadCap),
        hist := st.hist.(evicted := st.hist.evicted + L.DeadIds(L.Dropped(st.dead, it, c.deadCap))))
  }

  /** gates.Ensure(...). */
  function Ensured(st: Sys, id: Id): G.View
    requires id in st.stores
  {
    G.EnsureView(st.gates, id, G.RateSpec(st.stores[id].rate, st.stores[id].burst), st.now)
  }

  /** gates.Ensure(...), then Allow on the store's breaker. What comes in between in the program is
      covered by an OpenGates step before this one, which leaves its own Ensure nothing to do. */
  function AllowStep(c: Config, st: Sys, w: nat, j: Job): Sys
    requires w < |st.workers| && j.storeId in st.stores
  {
    var id, g := j.storeId, Ensured(st, j.storeId);
    var (b, dec) := C.AllowOf(g.breakers[id], c.breaker, st.now);
    var t := st.(gates := g.(breakers := g.breakers[id := b]));
    At(t, w, if dec.allow then Admitted(j) else Deferred(j, 200 * MILLISECOND, SkippedOpen))
  }

  function TakeStep(st: Sys, w: nat, j: Job): Sys
    requires w < |st.workers| && j.storeId in st.gates.buckets && st.gates.buckets[j.storeId].rate > 0.0
  {
    var (b, wait) := R.TakeOf(st.gates.buckets[j.storeId], st.now);
    var t := st.(gates := st.gates.(buckets := st.gates.buckets[j.storeId := b]));
    if wait > 0 then At(t, w, Deferred(j, wait, RateDelayed))
    else
      var k := j.(attempt := j.attempt + 1);
      At(t.(hist := t.hist.(posts := t.hist.posts[j.relayId := PostsOf(st.hist, j.relayId) + [k.attempt]])), w,
         Posting(k))
  }

  function TellStep(c: Config, st: Sys, w: nat, j: Job, kind: Kind): Sys
    requires w < |st.workers| && j.storeId in st.gates.breakers
  {
    var b := st.gates.breakers[j.storeId];
    var b' := if kind == Success then C.SuccessOf(b) else C.FailureOf(b, c.breaker, st.now);
    At(st.(gates := st.gates.(breakers := st.gates.breakers[j.storeId := b'])), w, Settling(j, kind))
  }

  /** The job as Requeue puts it back. */
  function Postponed(j: Job, at: Time, wait: Time): Job {
    j.(notBefore := at + wait)
  }

  /** The job as Retry puts it back. */
  function Retried(c: Config, j: Job, at: Time, u: real): Job {
    j.(notBefore := at + P.Delay(c.policy, j.attempt, u))
  }

  function RetryStep(c: Config, st: Sys, w: nat, j: Job, at: Time, u: real): Sys
    requires w < |st.workers| && j.storeId in st.stores
  {
    var slept := SleptOf(st.hist, j.relayId) + P.Delay(c.policy, j.attempt, u);
    var h := st.hist.(slept := st.hist.slept[j.relayId := slept]);
    At(st.(broker := Enqueued(st, Retried(c, j, at, u)), hist := h), w, Finished(j.storeId))
  }

  ghost function ApplyWork(c: Config, st: Sys, w: nat, s: WorkerStep): Sys
    requires w < |st.workers| && WorkerEnabled(c, st, st.workers[w], s)
  {
    var p := st.workers[w];
    match s
    case Lease(j) => At(st.(broker := B.LeaseView(st.broker, j.storeId, j)), w, Leased(j))
    case LookUp =>
      At(st, w,
         if p.job.storeId in st.stores && st.stores[p.job.storeId].enabled then Checked(p.job) else Condemned(p.job))
    case Bury(at) => At(Buried(c, st, p.job, StoreUnavailable, at), w, Noting(p.job, TerminalNote))
    case Allow => AllowStep(c, st, w, p.job)
    case Take => TakeStep(st, w, p.job)
    case Requeue(at) =>
      At(st.(broker := Enqueued(st, Postponed(p.job, at, p.wait))), w, Noting(p.job, p.row))
    case Answer(kind, at) =>
      var r := p.job.relayId;
      var t := st.(journal := Journaled(c, st, EntryFromJob(p.job, PostRow(kind), at)),
                   hist := st.hist.(rows := st.hist.rows[r := RowsOf(st.hist, r) + [p.job.attempt]]));
      At(t, w, Answered(p.job, kind))
    case Tell => TellStep(c, st, w, p.job, p.kind)
    case Deliver =>
      At(st.(hist := st.hist.(delivered := st.hist.delivered + multiset{p.job.relayId})), w, Finished(p.job.storeId))
    case GiveUp(at) =>
      if p.kind == Terminal then At(Buried(c, st, p.job, TerminalStatus, at), w, Finished(p.job.storeId))
      else At(Buried(c, st, p.job, AttemptsExhausted, at), w, Noting(p.job, TerminalNote))
    case Retry(at, u) => RetryStep(c, st, w, p.job, at, u)
    case Note(at) =>
      At(st.(journal := Journaled(c, st, EntryFromJob(p.job, p.row, at))), w, Finished(p.job.storeId))
    case Release => At(st.(broker := B.ReleaseView(st.broker, p.store)), w, Idle)
  }

  ghost function Apply(c: Config, st: Sys, l: Label): Sys
    requires Enabled(c, st, l)
  {
    match l
    case AdvanceTo(t) => st.(now := t)
    case CreateStore(d) => st.(stores := st.stores[d.id := d])
    case SetEnabled(id, e) => st.(stores := st.stores[id := st.stores[id].(enabled := e)])
    case OpenQueue(id) => st.(broker := B.EnsureView(st.broker, id, st.stores[id].ordered, st.stores[id].maxInFlight))
    case OpenGates(_, id) => st.(gates := Ensured(st, id))
    case Observe(id) =>
      st.(gates := st.gates.(breakers := st.gates.breakers[id := C.Settle(st.gates.breakers[id], c.breaker, st.now)]))
    case AcceptFrame(f, p) =>
      st.(plans := st.plans[f := PlanOf(st.stores, p.typ)], hist := st.hist.(accepted := st.hist.accepted[f := p]))
    case RelayFrame(f, s, r, at) =>
      var p := st.hist.accepted[f];
      Minted(st, Job(f, r, s, p.typ, p.body, 0, at, at, None)).(plans := st.plans[f := st.plans[f] - {s}])
    case ReplayDead(of, r, at) =>
      var j := JobFromDead(st.dead[L.LastAt(st.dead, of).value], r, at).value;
      Minted(st, j).(removals := st.removals + multiset{of})
    case ReplayJournal(of, r, at) => Minted(st, JobFromEntry(L.LastEntry(st.journal, of).value, r, at).value)
    case RemoveDead(of) =>
      var t := st.(removals := st.removals - multiset{of});
      if L.FirstAt(st.dead, of).None? then t
      else t.(dead := L.Without(st.dead, of), hist := st.hist.(consumed := st.hist.consumed + multiset{of}))
    case Work(w, s) => ApplyWork(c, st, w, s)
  }

  // ---------- Runs ----------

  ghost predicate Initial(st: Sys) {
    && st.stores == map[] && st.broker == map[] && st.gates == G.EMPTY && st.dead == [] && st.journal == []
    && st.plans == map[] && st.removals == multiset{} && (forall w :: 0 <= w < |st.workers| ==> st.workers[w] == Idle)
    && st.hist == History(map[], map[], multiset{}, multiset{}, multiset{}, map[], map[], map[])
  }

  /** l takes st to t. */
  ghost predicate Steps(c: Config, st: Sys, l: Label, t: Sys) {
    Enabled(c, st, l) && t == Apply(c, st, l)
  }

  /** states are the successive states of a run whose steps are labels. */
  ghost predicate IsRun(c: Config, states: seq<Sys>, labels: seq<Label>) {
    && |states| == |labels| + 1
    && forall i :: 0 <= i < |labels| ==> Steps(c, states[i], labels[i], states[i + 1])
  }
}
