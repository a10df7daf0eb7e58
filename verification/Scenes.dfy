/** Runs of one store, told shot by shot: what the runs of StuckRuns are made of. Every relay comes of
    a frame of its own, accepted just before. */
module Scenes {
  import opened Common
  import opened Jobs
  import opened Routing
  import opened Delivery
  import opened Effects
  import B = Brokers
  import C = Breakers
  import R = Buckets
  import G = Gates
  import K = Ledger
  import F = Progress

  /** What stays the same through a run: the configuration, whether Allow and Take are to be atomic,
      the initial state, the store, and the type of the frames. */
  datatype Setting = Setting(c: Config, atomic: bool, root: Sys, d: Store, typ: string)

  ghost predicate Good(k: Setting) {
    GoodConfig(k.c) && Normalized(k.d) && k.d.enabled && ValidType(Trim(k.typ)) && k.d.Takes(k.typ)
  }

  // ---------- Reaching a state ----------

  ghost predicate Path(k: Setting, states: seq<Sys>, labels: seq<Label>, t: Sys) {
    && IsRun(k.c, states, labels) && (k.atomic ==> F.AtomicGate(states, labels))
    && states[0] == k.root && states[|labels|] == t
  }

  ghost predicate Reaches(k: Setting, t: Sys) {
    exists states, labels :: Path(k, states, labels, t)
  }

  /** Between Allow and Take of one worker nothing else happens. */
  ghost predicate GateGoesOn(t: Sys, l: Label) {
    forall w :: 0 <= w < |t.workers| && t.workers[w].Admitted? ==> l == Work(w, Take)
  }

  lemma Here(k: Setting)
    ensures Reaches(k, k.root)
  {
    assert Path(k, [k.root], [], k.root);
  }

  lemma Extend(k: Setting, t: Sys, l: Label, u: Sys)
    requires Reaches(k, t) && Steps(k.c, t, l, u) && (k.atomic ==> GateGoesOn(t, l))
    ensures Reaches(k, u)
  {
    hide Steps;
    var states, labels :| Path(k, states, labels, t);
    var ss, ls := states + [u], labels + [l];
    forall i | 0 <= i < |ls|
      ensures Steps(k.c, ss[i], ls[i], ss[i + 1])
    {
      if i < |labels| {
        assert Steps(k.c, states[i], labels[i], states[i + 1]);
      }
    }
    if k.atomic {
      forall i, w | 0 <= i < |ls| && 0 <= w < |ss[i].workers| && ss[i].workers[w].Admitted?
        ensures ls[i] == Work(w, Take)
      {
        if i < |labels| {
          assert ss[i] == states[i];
        }
      }
    }
    assert Path(k, ss, ls, u);
  }

  // ---------- A shot ----------

  /** The clock, the workers, how many of them occupy a slot, the jobs waiting, the breaker, the
      tokens a Take would find, and a length no frame id and no relay id has reached. */
  datatype Shot = Shot(
    now: Time, ws: seq<Phase>, busy: nat, q: multiset<Job>, breaker: C.BreakerState, tokens: real, m: nat)

  function BrokerOf(d: Store, busy: nat, q: multiset<Job>): B.View {
    map[d.id := B.NewQueue(d.ordered, d.maxInFlight).(inFlight := busy, ready := q)]
  }

  /** The bucket of d, with this many tokens for a Take at instant now. */
  ghost predicate Holds(d: Store, b: R.BucketState, now: Time, tokens: real) {
    R.Valid(b) && b.rate == d.rate && b.burst == d.burst as real && b.lastTime <= now && R.Refilled(b, now) == tokens
  }

  ghost predicate GatesAre(v: G.View, d: Store, breaker: C.BreakerState, now: Time, tokens: real) {
    && v.breakers == map[d.id := breaker] && v.rates == map[d.id := F.SpecOf(d)]
    && v.buckets.Keys == {d.id} && Holds(d, v.buckets[d.id], now, tokens)
  }

  ghost predicate Scene(d: Store, st: Sys, x: Shot) {
    && st.now == x.now && st.workers == x.ws && st.stores == map[d.id := d]
    && st.broker == BrokerOf(d, x.busy, x.q) && GatesAre(st.gates, d, x.breaker, x.now, x.tokens)
    && Cast(st.hist, x.m)
  }

  ghost predicate Cast(h: History, m: nat) {
    (forall f :: f in h.accepted ==> |f| < m) && forall r :: r in h.births ==> |r| < m
  }

  /** Some run leads to this shot. */
  ghost predicate Can(k: Setting, x: Shot) {
    exists st :: Reaches(k, st) && Scene(k.d, st, x)
  }

  ghost predicate Later(q: multiset<Job>, now: Time) {
    forall j :: j in q ==> j.notBefore > now
  }

  /** Worker w may go on: when Allow and Take are atomic, nobody else stands between the two. */
  ghost predicate Fair(k: Setting, ws: seq<Phase>, w: nat) {
    w < |ws| && (k.atomic ==> forall v :: 0 <= v < |ws| && v != w ==> !ws[v].Admitted?)
  }

  function Name(m: nat): Id {
    seq(m, _ => 'x')
  }

  function PayloadOf(k: Setting): Payload {
    Payload(k.typ, [0 as Byte])
  }

  /** The relay of the frame accepted at instant `at`, both under an id of length m. */
  function JobAt(k: Setting, m: nat, at: Time): Job {
    Job(Name(m), Name(m), k.d.id, k.typ, PayloadOf(k).body, 0, at, at, None)
  }

  lemma LeaseLeaves(d: Store, busy: nat, q: multiset<Job>, j: Job)
    ensures B.LeaseView(BrokerOf(d, busy, q + multiset{j}), d.id, j) == BrokerOf(d, busy + 1, q)
  {
    assert q + multiset{j} - multiset{j} == q;
  }

  lemma ReleaseLeaves(d: Store, busy: nat, q: multiset<Job>)
    requires busy > 0
    ensures B.ReleaseView(BrokerOf(d, busy, q), d.id) == BrokerOf(d, busy - 1, q)
  {
  }

  lemma EnqueueLeaves(st: Sys, d: Store, busy: nat, q: multiset<Job>, j: Job)
    requires st.broker == BrokerOf(d, busy, q) && st.stores == map[d.id := d] && j.storeId == d.id
    ensures Enqueued(st, j) == BrokerOf(d, busy, q + multiset{j})
  {
  }

  // ---------- One step ----------

  /** A step of worker w, from one shot to the next. */
  lemma Worked(k: Setting, st: Sys, t: Sys, w: nat, s: WorkerStep, x: Shot, y: Shot, gates: G.View,
               dead: seq<DeadItem>, journal: seq<Entry>)
    requires Reaches(k, st) && Scene(k.d, st, x) && Steps(k.c, st, Work(w, s), t) && Fair(k, x.ws, w)
    requires x.ws[w].Admitted? ==> s == Take
    requires Becomes(st, t, w, if w < |y.ws| then y.ws[w] else Idle, BrokerOf(k.d, y.busy, y.q), gates, dead, journal)
    requires |y.ws| == |x.ws| && y.ws == x.ws[w := y.ws[w]] && y.now == x.now && y.m == x.m
    requires GatesAre(gates, k.d, y.breaker, y.now, y.tokens)
    ensures Can(k, y)
  {
    hide GatesAre, BrokerOf;
    KeptCast(k.c, st, w, s, t);
    Extend(k, st, Work(w, s), t);
    assert Scene(k.d, t, y);
  }

  lemma KeptCast(c: Config, st: Sys, w: nat, s: WorkerStep, t: Sys)
    requires Steps(c, st, Work(w, s), t)
    ensures t.hist.births == st.hist.births && t.hist.accepted == st.hist.accepted
  {
    hide ApplyWork;
    K.WorkMintsNothing(c, st, w, s);
  }

  /** The clock moves on. */
  lemma Wait(k: Setting, x: Shot, w: nat, to: Time, tokens: real)
    requires Good(k) && Can(k, x) && Fair(k, x.ws, w) && !x.ws[w].Admitted? && x.now <= to
    requires tokens == F.MinReal(k.d.burst as real, x.tokens + R.Earned(k.d.rate, to - x.now))
    ensures Can(k, x.(now := to, tokens := tokens))
  {
    var st :| Reaches(k, st) && Scene(k.d, st, x);
    F.RefilledLater(st.gates.buckets[k.d.id], x.now, to);
    var t := st.(now := to);
    assert Steps(k.c, st, AdvanceTo(to), t);
    Extend(k, st, AdvanceTo(to), t);
    assert Scene(k.d, t, x.(now := to, tokens := tokens));
  }

  /** A frame is accepted under an id of length m ... */
  lemma Enter(k: Setting, st: Sys, m: nat) returns (t: Sys)
    requires Good(k) && Reaches(k, st) && Cast(st.hist, m) && st.stores == map[k.d.id := k.d]
    requires k.atomic ==> forall w :: 0 <= w < |st.workers| ==> !st.workers[w].Admitted?
    ensures Reaches(k, t) && Name(m) in t.plans && k.d.id in t.plans[Name(m)]
    ensures t == st.(plans := t.plans, hist := st.hist.(accepted := st.hist.accepted[Name(m) := PayloadOf(k)]))
  {
    hide ValidType, Trim, Store.Takes, Reaches;
    var l := AcceptFrame(Name(m), PayloadOf(k));
    assert |Name(m)| == m;
    t := Apply(k.c, st, l);
    assert k.d.Matches(k.typ);
    Extend(k, st, l, t);
  }

  /** ... and relayed to the one store it has been planned for. */
  lemma Issue(k: Setting, st: Sys, m: nat) returns (t: Sys)
    requires Good(k) && Reaches(k, st) && Cast(st.hist, m) && st.stores == map[k.d.id := k.d]
    requires k.atomic ==> forall w :: 0 <= w < |st.workers| ==> !st.workers[w].Admitted?
    ensures Reaches(k, t) && Cast(t.hist, m + 1) && t.broker == Enqueued(st, JobAt(k, m, st.now))
    ensures t == st.(broker := t.broker, plans := t.plans, hist := t.hist)
  {
    hide ValidType, Trim, Store.Takes, Reaches, Enqueued;
    var u := Enter(k, st, m);
    var l := RelayFrame(Name(m), k.d.id, Name(m), st.now);
    assert |Name(m)| == m;
    t := Apply(k.c, u, l);
    SameQueue(u, st, JobAt(k, m, st.now));
    Extend(k, u, l, t);
  }

  lemma SameQueue(st: Sys, t: Sys, j: Job)
    requires st.broker == t.broker && st.stores == t.stores && j.storeId in st.stores
    ensures Enqueued(st, j) == Enqueued(t, j)
  {
  }

  lemma Relay(k: Setting, x: Shot, w: nat)
    requires Good(k) && Can(k, x) && Fair(k, x.ws, w) && !x.ws[w].Admitted?
    ensures Can(k, x.(q := x.q + multiset{JobAt(k, x.m, x.now)}, m := x.m + 1))
  {
    hide Enqueued, BrokerOf, GatesAre, Good, Reaches;
    var st :| Reaches(k, st) && Scene(k.d, st, x);
    var t := Issue(k, st, x.m);
    EnqueueLeaves(st, k.d, x.busy, x.q, JobAt(k, x.m, x.now));
    assert Scene(k.d, t, x.(q := x.q + multiset{JobAt(k, x.m, x.now)}, m := x.m + 1));
  }

  lemma TakeUp(k: Setting, x: Shot, w: nat, j: Job, rest: multiset<Job>)
    requires Good(k) && Can(k, x) && Fair(k, x.ws, w) && x.ws[w] == Idle && x.busy < F.MaxFlight(k.d)
    requires x.q == rest + multiset{j} && j.storeId == k.d.id && j.notBefore == x.now && Later(rest, x.now)
    ensures Can(k, x.(ws := x.ws[w := Leased(j)], busy := x.busy + 1, q := rest))
  {
    hide B.Leasable, B.LeaseView, BrokerOf, GatesAre, Steps, Later, Good, Cast, Reaches;
    var st :| Reaches(k, st) && Scene(k.d, st, x);
    FirstDue(k.d, x.busy, rest, j, x.now);
    LeaseLeaves(k.d, x.busy, rest, j);
    var t := LeaseEffect(k.c, st, w, j);
    Worked(k, st, t, w, Lease(j), x, x.(ws := x.ws[w := Leased(j)], busy := x.busy + 1, q := rest), st.gates, st.dead,
           st.journal);
  }

  lemma FirstDue(d: Store, busy: nat, q: multiset<Job>, j: Job, now: Time)
    requires j.notBefore == now && j.storeId == d.id && Later(q, now) && busy < F.MaxFlight(d)
    ensures B.Leasable(BrokerOf(d, busy, q + multiset{j}), now, d.id, j)
  {
    assert forall k :: k in q + multiset{j} ==> k in q || k == j;
  }

  lemma Find(k: Setting, x: Shot, w: nat, j: Job)
    requires Good(k) && Can(k, x) && Fair(k, x.ws, w) && x.ws[w] == Leased(j) && j.storeId == k.d.id
    ensures Can(k, x.(ws := x.ws[w := Checked(j)]))
  {
    var st :| Reaches(k, st) && Scene(k.d, st, x);
    var t := LookUpEffect(k.c, st, w, j);
    Worked(k, st, t, w, LookUp, x, x.(ws := x.ws[w := Checked(j)]), st.gates, st.dead, st.journal);
  }

  /** The breaker alone has moved. */
  lemma GatesMoved(v: G.View, d: Store, x: Shot, b: C.BreakerState)
    requires GatesAre(v, d, x.breaker, x.now, x.tokens)
    ensures d.id in v.breakers && v.breakers[d.id] == x.breaker
    ensures GatesAre(v.(breakers := v.breakers[d.id := b]), d, b, x.now, x.tokens)
  {
  }

  lemma GatesStand(d: Store, st: Sys, x: Shot)
    requires Scene(d, st, x)
    ensures Ensured(st, d.id) == st.gates
  {
  }

  lemma Admit(k: Setting, x: Shot, w: nat, j: Job)
    requires Good(k) && Can(k, x) && Fair(k, x.ws, w) && x.ws[w] == Checked(j) && j.storeId == k.d.id
    requires C.AllowOf(x.breaker, k.c.breaker, x.now).1.allow
    ensures Can(k, x.(ws := x.ws[w := Admitted(j)], breaker := C.AllowOf(x.breaker, k.c.breaker, x.now).0))
  {
    hide Steps, GatesAre, BrokerOf, Cast, C.AllowOf, Ensured;
    var st :| Reaches(k, st) && Scene(k.d, st, x);
    GatesStand(k.d, st, x);
    GatesMoved(st.gates, k.d, x, C.AllowOf(x.breaker, k.c.breaker, x.now).0);
    var t := AllowEffect(k.c, st, w, j);
    Worked(k, st, t, w, Allow, x,
           x.(ws := x.ws[w := Admitted(j)], breaker := C.AllowOf(x.breaker, k.c.breaker, x.now).0),
           t.gates, st.dead, st.journal);
  }

  lemma TakeOne(d: Store, b: R.BucketState, now: Time, tokens: real)
    requires Holds(d, b, now, tokens) && tokens >= 1.0
    ensures R.TakeOf(b, now).1 == 0 && Holds(d, R.TakeOf(b, now).0, now, tokens - 1.0)
  {
    R.TakeKeepsValid(b, now);
    R.EarnedGrows(b.rate, 0, 0);
  }

  lemma TakeNone(d: Store, b: R.BucketState, now: Time, tokens: real)
    requires Holds(d, b, now, tokens) && tokens <= 1.0 - R.Earned(d.rate, 1)
    ensures R.TakeOf(b, now).1 > 0 && Holds(d, R.TakeOf(b, now).0, now, tokens)
  {
    R.TakeKeepsValid(b, now);
    R.FreeGrantIff(b, now);
    R.EarnedGrows(b.rate, 0, 1);
  }

  /** The bucket has a token: the POST goes out. */
  lemma Launch(k: Setting, x: Shot, w: nat, j: Job)
    requires Good(k) && Can(k, x) && Fair(k, x.ws, w) && x.ws[w] == Admitted(j) && j.storeId == k.d.id
    requires x.tokens >= 1.0
    ensures Can(k, x.(ws := x.ws[w := Posting(j.(attempt := j.attempt + 1))], tokens := x.tokens - 1.0))
  {
    hide Steps, BrokerOf, Cast, Reaches, R.TakeOf, R.Refilled;
    var st :| Reaches(k, st) && Scene(k.d, st, x);
    TakeOne(k.d, st.gates.buckets[k.d.id], x.now, x.tokens);
    var t := TakeEffect(k.c, st, w, j);
    Worked(k, st, t, w, Take, x, x.(ws := x.ws[w := Posting(j.(attempt := j.attempt + 1))], tokens := x.tokens - 1.0),
           t.gates, st.dead, st.journal);
  }

  /** A bucket short of a token by a nanosecond's refill or more sends the job back. */
  lemma Turn(k: Setting, x: Shot, w: nat, j: Job) returns (wait: Time)
    requires Good(k) && Can(k, x) && Fair(k, x.ws, w) && x.ws[w] == Admitted(j) && j.storeId == k.d.id
    requires x.tokens <= 1.0 - R.Earned(k.d.rate, 1)
    ensures wait > 0 && Can(k, x.(ws := x.ws[w := Deferred(j, wait, RateDelayed)]))
  {
    hide Steps, BrokerOf, Cast, Reaches, R.TakeOf, R.Refilled;
    var st :| Reaches(k, st) && Scene(k.d, st, x);
    TakeNone(k.d, st.gates.buckets[k.d.id], x.now, x.tokens);
    wait := R.TakeOf(st.gates.buckets[k.d.id], x.now).1;
    var t := TakeEffect(k.c, st, w, j);
    Worked(k, st, t, w, Take, x, x.(ws := x.ws[w := Deferred(j, wait, RateDelayed)]), t.gates, st.dead, st.journal);
  }

  lemma PutBack(k: Setting, x: Shot, w: nat, j: Job, wait: Time)
    requires Good(k) && Can(k, x) && Fair(k, x.ws, w) && x.ws[w] == Deferred(j, wait, RateDelayed)
    requires j.storeId == k.d.id
    ensures Can(k, x.(ws := x.ws[w := Noting(j, RateDelayed)], q := x.q + multiset{Postponed(j, x.now, wait)}))
  {
    hide Enqueued, BrokerOf, GatesAre, Steps;
    var st :| Reaches(k, st) && Scene(k.d, st, x);
    var t := RequeueEffect(k.c, st, w, j, wait, RateDelayed);
    var y := x.(ws := x.ws[w := Noting(j, RateDelayed)], q := x.q + multiset{Postponed(j, x.now, wait)});
    EnqueueLeaves(st, k.d, x.busy, x.q, Postponed(j, x.now, wait));
    Worked(k, st, t, w, Requeue(st.now), x, y, st.gates, st.dead, st.journal);
  }

  lemma Record(k: Setting, x: Shot, w: nat, j: Job)
    requires Good(k) && Can(k, x) && Fair(k, x.ws, w) && x.ws[w] == Noting(j, RateDelayed) && j.storeId == k.d.id
    ensures Can(k, x.(ws := x.ws[w := Finished(k.d.id)]))
  {
    var st :| Reaches(k, st) && Scene(k.d, st, x);
    var t := NoteEffect(k.c, st, w, j, RateDelayed);
    Worked(k, st, t, w, Note(st.now), x, x.(ws := x.ws[w := Finished(k.d.id)]), st.gates, st.dead, t.journal);
  }

  lemma Hear(k: Setting, x: Shot, w: nat, j: Job, kind: Kind)
    requires Good(k) && Can(k, x) && Fair(k, x.ws, w) && x.ws[w] == Posting(j)
    ensures Can(k, x.(ws := x.ws[w := Answered(j, kind)]))
  {
    var st :| Reaches(k, st) && Scene(k.d, st, x);
    var t := AnswerEffect(k.c, st, w, j, kind);
    Worked(k, st, t, w, Answer(kind, st.now), x, x.(ws := x.ws[w := Answered(j, kind)]), st.gates, st.dead, t.journal);
  }

  function Told(c: Config, b: C.BreakerState, kind: Kind, now: Time): C.BreakerState {
    if kind == Success then C.SuccessOf(b) else C.FailureOf(b, c.breaker, now)
  }

  lemma Report(k: Setting, x: Shot, w: nat, j: Job, kind: Kind)
    requires Good(k) && Can(k, x) && Fair(k, x.ws, w) && x.ws[w] == Answered(j, kind) && j.storeId == k.d.id
    ensures Can(k, x.(ws := x.ws[w := Settling(j, kind)], breaker := Told(k.c, x.breaker, kind, x.now)))
  {
    hide Steps, GatesAre, BrokerOf, Cast, C.FailureOf, C.SuccessOf;
    var st :| Reaches(k, st) && Scene(k.d, st, x);
    GatesMoved(st.gates, k.d, x, Told(k.c, x.breaker, kind, x.now));
    var t := TellEffect(k.c, st, w, j, kind);
    Worked(k, st, t, w, Tell, x, x.(ws := x.ws[w := Settling(j, kind)], breaker := Told(k.c, x.breaker, kind, x.now)),
           t.gates, st.dead, st.journal);
  }

  lemma Close(k: Setting, x: Shot, w: nat, j: Job, kind: Kind)
    requires Good(k) && Can(k, x) && Fair(k, x.ws, w) && x.ws[w] == Settling(j, kind) && j.storeId == k.d.id
    requires kind != Retryable
    ensures Can(k, x.(ws := x.ws[w := Finished(k.d.id)]))
  {
    var st :| Reaches(k, st) && Scene(k.d, st, x);
    if kind == Success {
      var t := DeliverEffect(k.c, st, w, j);
      Worked(k, st, t, w, Deliver, x, x.(ws := x.ws[w := Finished(k.d.id)]), st.gates, st.dead, st.journal);
    } else {
      var t := GiveUpEffect(k.c, st, w, j, kind);
      Worked(k, st, t, w, GiveUp(st.now), x, x.(ws := x.ws[w := Finished(k.d.id)]), st.gates, t.dead, st.journal);
    }
  }

  lemma Free(k: Setting, x: Shot, w: nat)
    requires Good(k) && Can(k, x) && Fair(k, x.ws, w) && x.ws[w] == Finished(k.d.id) && x.busy > 0
    ensures Can(k, x.(ws := x.ws[w := Idle], busy := x.busy - 1))
  {
    hide B.ReleaseView, BrokerOf, GatesAre, Steps, Good, Cast, Reaches;
    ReleaseLeaves(k.d, x.busy, x.q);
    var st :| Reaches(k, st) && Scene(k.d, st, x);
    var t := ReleaseEffect(k.c, st, w, k.d.id);
    Worked(k, st, t, w, Release, x, x.(ws := x.ws[w := Idle], busy := x.busy - 1), st.gates, st.dead, st.journal);
  }

  // ---------- The opening ----------

  /** Before the store's gates are made: worker 0 in phase p, everybody else idle. */
  ghost predicate Backstage(k: Setting, st: Sys, p: Phase, busy: nat, q: multiset<Job>) {
    && 0 < |k.root.workers| && st.now == k.root.now && st.workers == k.root.workers[0 := p]
    && st.stores == map[k.d.id := k.d] && st.broker == BrokerOf(k.d, busy, q) && st.gates == G.EMPTY && Cast(st.hist, 1)
  }

  /** The store is created, and a first relay waits. */
  lemma Arrival(k: Setting) returns (t: Sys)
    requires Good(k) && Initial(k.root) && 0 < |k.root.workers|
    ensures Reaches(k, t) && Backstage(k, t, Idle, 0, multiset{} + multiset{JobAt(k, 0, k.root.now)})
  {
    hide ValidType, Trim, Store.Takes, Reaches;
    Here(k);
    var st := k.root.(stores := map[k.d.id := k.d]);
    assert Steps(k.c, k.root, CreateStore(k.d), st);
    Extend(k, k.root, CreateStore(k.d), st);
    t := Issue(k, st, 0);
    FirstQueue(st, k.d, JobAt(k, 0, k.root.now));
    assert k.root.workers[0 := Idle] == k.root.workers;
  }

  /** Worker 0 leases it and finds the store. */
  lemma Entrance(k: Setting) returns (t: Sys)
    requires Good(k) && Initial(k.root) && 0 < |k.root.workers|
    ensures Reaches(k, t) && Backstage(k, t, Checked(JobAt(k, 0, k.root.now)), 1, multiset{})
  {
    hide Reaches, BrokerOf, B.Leasable, B.LeaseView, Cast, Steps, Normalized, ValidType, Trim, Store.Takes;
    var j, d := JobAt(k, 0, k.root.now), k.d;
    var st := Arrival(k);
    OneSlot(k);
    FirstDue(d, 0, multiset{}, j, k.root.now);
    LeaseLeaves(d, 0, multiset{}, j);
    var u := LeaseEffect(k.c, st, 0, j);
    KeptCast(k.c, st, 0, Lease(j), u);
    Offstage(k, st, Idle, Work(0, Lease(j)));
    Extend(k, st, Work(0, Lease(j)), u);
    t := LookUpEffect(k.c, u, 0, j);
    KeptCast(k.c, u, 0, LookUp, t);
    Offstage(k, u, Leased(j), Work(0, LookUp));
    Extend(k, u, Work(0, LookUp), t);
    assert k.root.workers[0 := Leased(j)][0 := Checked(j)] == k.root.workers[0 := Checked(j)];
    assert t.hist.accepted == st.hist.accepted && t.hist.births == st.hist.births;
    SameCast(st.hist, t.hist, 1);
  }

  lemma FirstQueue(st: Sys, d: Store, j: Job)
    requires st.broker == map[] && st.stores == map[d.id := d] && j.storeId == d.id
    ensures Enqueued(st, j) == BrokerOf(d, 0, multiset{} + multiset{j})
  {
  }

  lemma OneSlot(k: Setting)
    requires Good(k)
    ensures F.MaxFlight(k.d) > 0
  {
  }

  lemma SameCast(h: History, k: History, m: nat)
    requires Cast(h, m) && h.accepted == k.accepted && h.births == k.births
    ensures Cast(k, m)
  {
  }

  /** Nobody stands between Allow and Take. */
  lemma Offstage(k: Setting, st: Sys, p: Phase, l: Label)
    requires Initial(k.root) && 0 < |k.root.workers| && st.workers == k.root.workers[0 := p] && !p.Admitted?
    ensures GateGoesOn(st, l)
  {
  }

  /** It makes the gates. */
  lemma Opening(k: Setting)
    requires Good(k) && Initial(k.root) && 0 < |k.root.workers|
    ensures Can(k, Shot(k.root.now, k.root.workers[0 := Checked(JobAt(k, 0, k.root.now))], 1, multiset{},
                        C.FRESH, k.d.burst as real, 1))
  {
    hide ValidType, Trim, Store.Takes, Reaches, BrokerOf, Cast;
    var j := JobAt(k, 0, k.root.now);
    var st := Entrance(k);
    var l, t := OpenGates(0, k.d.id), st.(gates := Ensured(st, k.d.id));
    assert Steps(k.c, st, l, t);
    Offstage(k, st, Checked(j), l);
    Extend(k, st, l, t);
    R.EarnedGrows(k.d.rate, 0, 0);
    assert Scene(k.d, t, Shot(st.now, st.workers, 1, multiset{}, C.FRESH, k.d.burst as real, 1));
  }

  // ---------- One job ----------

  /** A relay is enqueued, leased by worker w and let through by the breaker. */
  lemma Approach(k: Setting, x: Shot, w: nat)
    requires Good(k) && Can(k, x) && Fair(k, x.ws, w) && x.ws[w] == Idle && x.busy < F.MaxFlight(k.d)
    requires Later(x.q, x.now) && C.AllowOf(x.breaker, k.c.breaker, x.now).1.allow
    ensures Can(k, x.(ws := x.ws[w := Admitted(JobAt(k, x.m, x.now))], busy := x.busy + 1,
                      breaker := C.AllowOf(x.breaker, k.c.breaker, x.now).0, m := x.m + 1))
  {
    hide Can, Later;
    var j := JobAt(k, x.m, x.now);
    Relay(k, x, w);
    var y := x.(q := x.q + multiset{j}, m := x.m + 1);
    TakeUp(k, y, w, j, x.q);
    y := y.(ws := x.ws[w := Leased(j)], busy := x.busy + 1, q := x.q);
    Find(k, y, w, j);
    assert y.ws[w := Checked(j)] == x.ws[w := Checked(j)];
    y := y.(ws := x.ws[w := Checked(j)]);
    Admit(k, y, w, j);
    assert y.ws[w := Admitted(j)] == x.ws[w := Admitted(j)];
  }

  /** The bucket has a token: the POST goes out, ends as kind, and the worker is idle again. */
  lemma Fire(k: Setting, x: Shot, w: nat, j: Job, kind: Kind)
    requires Good(k) && Can(k, x) && Fair(k, x.ws, w) && x.ws[w] == Admitted(j) && j.storeId == k.d.id && x.busy > 0
    requires x.tokens >= 1.0 && kind != Retryable
    ensures Can(k, x.(ws := x.ws[w := Idle], busy := x.busy - 1,
                      breaker := Told(k.c, x.breaker, kind, x.now), tokens := x.tokens - 1.0))
  {
    hide Can, Told;
    var i := j.(attempt := j.attempt + 1);
    Launch(k, x, w, j);
    var y := x.(ws := x.ws[w := Posting(i)], tokens := x.tokens - 1.0);
    Hear(k, y, w, i, kind);
    assert y.ws[w := Answered(i, kind)] == x.ws[w := Answered(i, kind)];
    y := y.(ws := x.ws[w := Answered(i, kind)]);
    Report(k, y, w, i, kind);
    assert y.ws[w := Settling(i, kind)] == x.ws[w := Settling(i, kind)];
    y := y.(ws := x.ws[w := Settling(i, kind)], breaker := Told(k.c, x.breaker, kind, x.now));
    Finish(k, x.ws, y, w, i, kind);
  }

  lemma Finish(k: Setting, ws: seq<Phase>, x: Shot, w: nat, j: Job, kind: Kind)
    requires Good(k) && Can(k, x) && Fair(k, x.ws, w) && w < |ws| && x.ws == ws[w := Settling(j, kind)]
    requires j.storeId == k.d.id && x.busy > 0 && kind != Retryable
    ensures Can(k, x.(ws := ws[w := Idle], busy := x.busy - 1))
  {
    hide Can;
    Close(k, x, w, j, kind);
    assert x.ws[w := Finished(k.d.id)] == ws[w := Finished(k.d.id)];
    var y := x.(ws := ws[w := Finished(k.d.id)]);
    Free(k, y, w);
    assert y.ws[w := Idle] == ws[w := Idle];
  }

  /** The bucket has none: the job goes back into the queue and the worker is idle again. */
  lemma SendBack(k: Setting, x: Shot, w: nat, j: Job) returns (p: multiset<Job>)
    requires Good(k) && Can(k, x) && Fair(k, x.ws, w) && x.ws[w] == Admitted(j) && j.storeId == k.d.id && x.busy > 0
    requires Later(x.q, x.now) && x.tokens <= 1.0 - R.Earned(k.d.rate, 1)
    ensures Later(p, x.now) && Can(k, x.(ws := x.ws[w := Idle], busy := x.busy - 1, q := p))
  {
    hide Can;
    var wait := Turn(k, x, w, j);
    p := x.q + multiset{Postponed(j, x.now, wait)};
    assert forall i :: i in p ==> i in x.q || i == Postponed(j, x.now, wait);
    var y := x.(ws := x.ws[w := Deferred(j, wait, RateDelayed)]);
    PutBack(k, y, w, j, wait);
    assert y.ws[w := Noting(j, RateDelayed)] == x.ws[w := Noting(j, RateDelayed)];
    y := y.(ws := x.ws[w := Noting(j, RateDelayed)], q := p);
    Record(k, y, w, j);
    assert y.ws[w := Finished(k.d.id)] == x.ws[w := Finished(k.d.id)];
    y := y.(ws := x.ws[w := Finished(k.d.id)]);
    Free(k, y, w);
    assert y.ws[w := Idle] == x.ws[w := Idle];
  }

  /** One POST by an idle worker. */
  lemma Post(k: Setting, x: Shot, w: nat, kind: Kind)
    requires Good(k) && Can(k, x) && Fair(k, x.ws, w) && x.ws[w] == Idle && x.busy < F.MaxFlight(k.d)
    requires Later(x.q, x.now)
    requires x.breaker.state == C.Closed && x.tokens >= 1.0 && kind != Retryable
    ensures Can(k, x.(breaker := Told(k.c, x.breaker, kind, x.now), tokens := x.tokens - 1.0, m := x.m + 1))
  {
    hide Can, Told;
    var j := JobAt(k, x.m, x.now);
    Approach(k, x, w);
    var y := x.(ws := x.ws[w := Admitted(j)], busy := x.busy + 1, m := x.m + 1);
    Fire(k, y, w, j, kind);
    assert y.ws[w := Idle] == x.ws;
  }

  /** A granted probe that the bucket sends back: spent, and nothing comes of it. */
  lemma Waste(k: Setting, x: Shot, w: nat) returns (p: multiset<Job>)
    requires Good(k) && Can(k, x) && Fair(k, x.ws, w) && x.ws[w] == Idle && x.busy < F.MaxFlight(k.d)
    requires Later(x.q, x.now)
    requires C.AllowOf(x.breaker, k.c.breaker, x.now).1.allow && x.tokens <= 1.0 - R.Earned(k.d.rate, 1)
    ensures Later(p, x.now) && Can(k, x.(breaker := C.AllowOf(x.breaker, k.c.breaker, x.now).0, q := p, m := x.m + 1))
  {
    hide Can;
    var j := JobAt(k, x.m, x.now);
    Approach(k, x, w);
    var y := x.(ws := x.ws[w := Admitted(j)], busy := x.busy + 1,
                breaker := C.AllowOf(x.breaker, k.c.breaker, x.now).0, m := x.m + 1);
    p := SendBack(k, y, w, j);
    assert y.ws[w := Idle] == x.ws;
  }
}
