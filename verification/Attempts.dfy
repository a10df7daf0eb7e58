/** Attempt discipline: what a relay is POSTed, journaled and delayed, over every run. */
module Attempts {
  import opened Common
  import opened Jobs
  import opened Routing
  import opened Delivery
  import B = Brokers
  import C = Breakers
  import R = Buckets
  import P = Backoff
  import A = Accounts
  import K = Ledger
  import N = JobCounts

  /** 1, 2, ..., n. */
  function Iota(n: nat): seq<nat> {
    seq(n, i => i + 1)
  }

  lemma IotaSnoc(n: nat)
    ensures Iota(n) + [n + 1] == Iota(n + 1)
  {
  }

  /** Every attempt made so far is POSTed and journaled, and one more is allowed. */
  ghost predicate Resting(c: Config, h: History, j: Job) {
    && PostsOf(h, j.relayId) == RowsOf(h, j.relayId) == Iota(j.attempt)
    && 0 <= SleptOf(h, j.relayId) <= P.Envelope(c.policy, j.attempt) && j.attempt < c.policy.maxAttempts
  }

  /** The current attempt is counted; it is in the journal when `noted`. */
  ghost predicate Trying(c: Config, h: History, j: Job, noted: bool) {
    && 1 <= j.attempt <= c.policy.maxAttempts
    && PostsOf(h, j.relayId) == Iota(j.attempt)
    && RowsOf(h, j.relayId) == Iota(if noted then j.attempt else j.attempt - 1)
    && 0 <= SleptOf(h, j.relayId) <= P.Envelope(c.policy, j.attempt - 1)
  }

  ghost predicate HandOk(c: Config, h: History, p: Phase) {
    match p
    case Idle => true
    case Noting(_, _) => true
    case Finished(_) => true
    case Posting(j) => Trying(c, h, j, false)
    case Answered(j, _) => Trying(c, h, j, true)
    case Settling(j, _) => Trying(c, h, j, true)
    case Leased(j) => Resting(c, h, j)
    case Condemned(j) => Resting(c, h, j)
    case Checked(j) => Resting(c, h, j)
    case Admitted(j) => Resting(c, h, j)
    case Deferred(j, wait, _) => Resting(c, h, j) && wait > 0
  }

  /** POSTs numbered 1, 2, ..., k without gap or repeat, at most maxAttempts of them, journaled in
      that order but for at most the last, with backoff delays within the envelope. */
  ghost predicate Numbered(c: Config, h: History, r: Id) {
    var k, n := |PostsOf(h, r)|, |RowsOf(h, r)|;
    && PostsOf(h, r) == Iota(k) && RowsOf(h, r) == Iota(n) && k - 1 <= n <= k <= c.policy.maxAttempts
    && c.policy.maxAttempts >= 1 && 0 <= SleptOf(h, r) <= P.Envelope(c.policy, c.policy.maxAttempts - 1)
  }

  ghost predicate Disciplined(c: Config, st: Sys) {
    && (forall id, j :: id in st.broker && j in st.broker[id].ready ==> Resting(c, st.hist, j))
    && (forall w :: 0 <= w < |st.workers| ==> HandOk(c, st.hist, st.workers[w]))
    && (forall r: Id :: Numbered(c, st.hist, r))
  }

  // ---------- Only one carrier per relay ----------

  /** Nothing but the hands of worker w carries relay r. */
  ghost predicate OnlyIn(st: Sys, w: int, r: Id) {
    && (forall id, k :: id in st.broker && k in st.broker[id].ready ==> k.relayId != r)
    && (forall v :: 0 <= v < |st.workers| && v != w && st.workers[v].Held().Some? ==>
          st.workers[v].Held().value.relayId != r)
  }

  lemma SeenWaiting(v: B.View, id: Id, k: Job)
    requires id in v && k in v[id].ready
    ensures K.Waiting(v, k.relayId) >= 1
  {
    N.WaitingSplit(v, v.Keys, id, N.WithRelay(k.relayId));
    N.TakeOut(v[id].ready, k, N.WithRelay(k.relayId));
  }

  lemma Alone(st: Sys, w: nat)
    requires K.Balanced(st) && w < |st.workers| && st.workers[w].Held().Some?
    ensures OnlyIn(st, w, st.workers[w].Held().value.relayId)
  {
    var r := st.workers[w].Held().value.relayId;
    var rest := st.workers[w := Idle];
    assert K.Tally(st, r) <= 1;
    A.CountUpdate(st.workers, w, Idle, A.HoldsRelay(r));
    A.CountPositive(rest, A.HoldsRelay(r));
    forall id, k | id in st.broker && k in st.broker[id].ready
      ensures k.relayId != r
    {
      SeenWaiting(st.broker, id, k);
    }
    forall v | 0 <= v < |st.workers| && v != w && st.workers[v].Held().Some?
      ensures st.workers[v].Held().value.relayId != r
    {
      assert rest[v] == st.workers[v];
      assert A.Selects(A.HoldsRelay(st.workers[v].Held().value.relayId), rest[v]);
    }
  }

  lemma Unseen(st: Sys, r: Id)
    requires K.Balanced(st) && r !in st.hist.births
    ensures OnlyIn(st, -1, r)
  {
    assert K.Tally(st, r) == 0;
    A.CountPositive(st.workers, A.HoldsRelay(r));
    forall id, k | id in st.broker && k in st.broker[id].ready
      ensures k.relayId != r
    {
      SeenWaiting(st.broker, id, k);
    }
    forall v | 0 <= v < |st.workers| && st.workers[v].Held().Some?
      ensures st.workers[v].Held().value.relayId != r
    {
      assert A.Selects(A.HoldsRelay(st.workers[v].Held().value.relayId), st.workers[v]);
    }
  }

  /** Nothing but what is kept about relay r changes. */
  ghost predicate SameBut(h: History, k: History, r: Id) {
    forall q: Id :: q != r ==>
      PostsOf(k, q) == PostsOf(h, q) && RowsOf(k, q) == RowsOf(h, q) && SleptOf(k, q) == SleptOf(h, q)
  }

  lemma OthersKept(c: Config, st: Sys, k: History, w: int, r: Id)
    requires Disciplined(c, st) && SameBut(st.hist, k, r) && OnlyIn(st, w, r)
    ensures forall id, j :: id in st.broker && j in st.broker[id].ready ==> Resting(c, k, j)
    ensures forall v :: 0 <= v < |st.workers| && v != w ==> HandOk(c, k, st.workers[v])
    ensures forall q: Id :: q != r ==> Numbered(c, k, q)
  {
    forall id, j | id in st.broker && j in st.broker[id].ready
      ensures Resting(c, k, j)
    {
      assert Resting(c, st.hist, j);
    }
    forall v | 0 <= v < |st.workers| && v != w
      ensures HandOk(c, k, st.workers[v])
    {
      assert HandOk(c, st.hist, st.workers[v]);
    }
    forall q: Id | q != r
      ensures Numbered(c, k, q)
    {
      assert Numbered(c, st.hist, q);
    }
  }

  // ---------- Steps ----------

  /** Worker w's relay moves on: its history becomes that of k, its hands p. */
  lemma HandMoves(c: Config, st: Sys, k: History, w: nat, p: Phase, t: Sys)
    requires Disciplined(c, st) && K.Balanced(st) && w < |st.workers| && st.workers[w].Held().Some?
    requires SameBut(st.hist, k, st.workers[w].Held().value.relayId)
    requires HandOk(c, k, p) && Numbered(c, k, st.workers[w].Held().value.relayId)
    requires t.hist == k && t.workers == st.workers[w := p] && t.broker == st.broker
    ensures Disciplined(c, t)
  {
    var r := st.workers[w].Held().value.relayId;
    Alone(st, w);
    OthersKept(c, st, k, w, r);
    forall q: Id
      ensures Numbered(c, k, q)
    {
    }
  }

  lemma TakeDisciplined(c: Config, st: Sys, w: nat)
    requires Disciplined(c, st) && K.Balanced(st) && w < |st.workers| && WorkerEnabled(c, st, st.workers[w], Take)
    ensures Disciplined(c, ApplyWork(c, st, w, Take))
  {
    var t, j := ApplyWork(c, st, w, Take), st.workers[w].job;
    assert HandOk(c, st.hist, st.workers[w]);
    TakeShape(c, st, w);
    TakeEither(c, st, w, j, t);
  }

  /** A Take either postpones the job or counts the attempt; it touches no queue. */
  lemma TakeShape(c: Config, st: Sys, w: nat)
    requires w < |st.workers| && WorkerEnabled(c, st, st.workers[w], Take)
    ensures TakenOrNot(st, w, st.workers[w].job, ApplyWork(c, st, w, Take))
  {
  }

  ghost predicate TakenOrNot(st: Sys, w: nat, j: Job, t: Sys)
    requires w < |st.workers|
  {
    && t.broker == st.broker && |t.workers| == |st.workers| && t.workers == st.workers[w := t.workers[w]]
    && if t.workers[w].Posting?
       then t.workers[w].job == j.(attempt := j.attempt + 1)
            && t.hist == st.hist.(posts := st.hist.posts[j.relayId := PostsOf(st.hist, j.relayId) + [j.attempt + 1]])
       else t.workers[w].Deferred? && t.workers[w].job == j && t.workers[w].wait > 0 && t.hist == st.hist
  }

  lemma TakeEither(c: Config, st: Sys, w: nat, j: Job, t: Sys)
    requires Disciplined(c, st) && K.Balanced(st) && w < |st.workers| && st.workers[w] == Admitted(j)
    requires TakenOrNot(st, w, j, t)
    ensures Disciplined(c, t)
  {
    assert HandOk(c, st.hist, st.workers[w]);
    if t.workers[w].Posting? {
      TakeMoves(c, st, j, t.hist);
      HandMoves(c, st, t.hist, w, t.workers[w], t);
    } else {
      SameHistory(c, st, t, w);
    }
  }

  lemma TakeMoves(c: Config, st: Sys, j: Job, k: History)
    requires Disciplined(c, st) && Resting(c, st.hist, j)
    requires k == st.hist.(posts := st.hist.posts[j.relayId := PostsOf(st.hist, j.relayId) + [j.attempt + 1]])
    ensures Trying(c, k, j.(attempt := j.attempt + 1), false) && Numbered(c, k, j.relayId)
    ensures SameBut(st.hist, k, j.relayId)
  {
    IotaSnoc(j.attempt);
    assert Numbered(c, st.hist, j.relayId);
  }

  lemma AnswerDisciplined(c: Config, st: Sys, w: nat, kind: Kind, at: Time)
    requires Disciplined(c, st) && K.Balanced(st) && w < |st.workers|
    requires WorkerEnabled(c, st, st.workers[w], Answer(kind, at))
    ensures Disciplined(c, ApplyWork(c, st, w, Answer(kind, at)))
  {
    var t, j := ApplyWork(c, st, w, Answer(kind, at)), st.workers[w].job;
    assert HandOk(c, st.hist, st.workers[w]);
    IotaSnoc(j.attempt - 1);
    assert Numbered(c, st.hist, j.relayId);
    HandMoves(c, st, t.hist, w, t.workers[w], t);
  }

  lemma EnqueueDisciplined(c: Config, st: Sys, j: Job)
    requires Disciplined(c, st) && Resting(c, st.hist, j) && j.storeId in st.stores
    ensures Disciplined(c, st.(broker := Enqueued(st, j)))
  {
  }

  lemma RetryDisciplined(c: Config, st: Sys, w: nat, at: Time, u: real)
    requires GoodConfig(c) && Disciplined(c, st) && K.Balanced(st)
    requires w < |st.workers| && WorkerEnabled(c, st, st.workers[w], Retry(at, u))
    ensures Disciplined(c, ApplyWork(c, st, w, Retry(at, u)))
  {
    var t, j := ApplyWork(c, st, w, Retry(at, u)), st.workers[w].job;
    var mid := At(st.(hist := t.hist), w, Finished(j.storeId));
    assert HandOk(c, st.hist, st.workers[w]) && Numbered(c, st.hist, j.relayId);
    P.DelayBounds(c.policy, j.attempt, u);
    P.EnvelopeGrows(c.policy, j.attempt, c.policy.maxAttempts - 1);
    HandMoves(c, st, t.hist, w, Finished(j.storeId), mid);
    EnqueueDisciplined(c, mid, Retried(c, j, at, u));
  }

  /** Steps that touch no relay's history. */
  ghost predicate Quiet(s: WorkerStep) {
    s.LookUp? || s.Bury? || s.Allow? || s.Tell? || s.Deliver? || s.GiveUp? || s.Note?
  }

  lemma QuietHand(c: Config, st: Sys, w: nat, s: WorkerStep)
    requires w < |st.workers| && WorkerEnabled(c, st, st.workers[w], s) && Quiet(s)
    requires HandOk(c, st.hist, st.workers[w])
    ensures var t := ApplyWork(c, st, w, s);
      && t.hist.posts == st.hist.posts && t.hist.rows == st.hist.rows && t.hist.slept == st.hist.slept
      && t.broker == st.broker && |t.workers| == |st.workers| && t.workers == st.workers[w := t.workers[w]]
      && HandOk(c, st.hist, t.workers[w])
  {
    hide Resting, Trying, Buried, C.AllowOf, C.SuccessOf, C.FailureOf, LastN;
    if s.Bury? || s.GiveUp? {
      QuietBuryHand(c, st, w, s);
    }
  }

  lemma QuietBuryHand(c: Config, st: Sys, w: nat, s: WorkerStep)
    requires w < |st.workers| && WorkerEnabled(c, st, st.workers[w], s) && (s.Bury? || s.GiveUp?)
    ensures var t := ApplyWork(c, st, w, s);
      && t.hist.posts == st.hist.posts && t.hist.rows == st.hist.rows && t.hist.slept == st.hist.slept
      && t.broker == st.broker && |t.workers| == |st.workers| && t.workers == st.workers[w := t.workers[w]]
      && t.journal == st.journal && HandOk(c, st.hist, t.workers[w])
  {
    hide ApplyWork, Buried, K.ReasonOf;
    K.BuryShape(c, st, w, s);
    BuriedQuiet(c, st, st.workers[w].job, K.ReasonOf(st.workers[w], s), s.readAt);
  }

  lemma QuietDisciplined(c: Config, st: Sys, w: nat, s: WorkerStep)
    requires Disciplined(c, st) && w < |st.workers| && WorkerEnabled(c, st, st.workers[w], s)
    requires Quiet(s)
    ensures Disciplined(c, ApplyWork(c, st, w, s))
  {
    hide HandOk, Numbered, ApplyWork, WorkerEnabled;
    QuietHand(c, st, w, s);
    SameHistory(c, st, ApplyWork(c, st, w, s), w);
  }

  /** What Disciplined reads of a history. */
  ghost predicate SameRecord(h: History, k: History) {
    k.posts == h.posts && k.rows == h.rows && k.slept == h.slept
  }

  lemma SameVerdicts(c: Config, h: History, k: History)
    requires SameRecord(h, k)
    ensures forall p :: HandOk(c, h, p) ==> HandOk(c, k, p)
    ensures forall r :: Numbered(c, h, r) ==> Numbered(c, k, r)
    ensures forall j :: Resting(c, h, j) ==> Resting(c, k, j)
  {
    hide P.Envelope;
  }

  lemma SameHistory(c: Config, st: Sys, t: Sys, w: nat)
    requires Disciplined(c, st) && w < |st.workers| == |t.workers|
    requires t.hist.posts == st.hist.posts && t.hist.rows == st.hist.rows && t.hist.slept == st.hist.slept
    requires t.workers == st.workers[w := t.workers[w]] && HandOk(c, st.hist, t.workers[w])
    requires forall id, j :: id in t.broker && j in t.broker[id].ready ==> id in st.broker && j in st.broker[id].ready
    ensures Disciplined(c, t)
  {
    hide HandOk, Numbered, Resting;
    SameVerdicts(c, st.hist, t.hist);
    forall v | 0 <= v < |t.workers|
      ensures HandOk(c, t.hist, t.workers[v])
    {
      assert HandOk(c, st.hist, if v == w then t.workers[w] else st.workers[v]);
    }
  }

  lemma LeaseReleaseDisciplined(c: Config, st: Sys, w: nat, s: WorkerStep)
    requires Disciplined(c, st) && w < |st.workers| && WorkerEnabled(c, st, st.workers[w], s)
    requires (s.Lease? || s.Release?)
    ensures Disciplined(c, ApplyWork(c, st, w, s))
  {
    SameHistory(c, st, ApplyWork(c, st, w, s), w);
  }

  lemma RequeueDisciplined(c: Config, st: Sys, w: nat, at: Time)
    requires Disciplined(c, st) && w < |st.workers| && WorkerEnabled(c, st, st.workers[w], Requeue(at))
    ensures Disciplined(c, ApplyWork(c, st, w, Requeue(at)))
  {
    var t, p := ApplyWork(c, st, w, Requeue(at)), st.workers[w];
    assert HandOk(c, st.hist, p);
    SameHistory(c, st, At(st, w, t.workers[w]), w);
    EnqueueDisciplined(c, At(st, w, t.workers[w]), Postponed(p.job, at, p.wait));
  }

  lemma WorkDisciplined(c: Config, st: Sys, w: nat, s: WorkerStep)
    requires GoodConfig(c) && Disciplined(c, st) && K.Balanced(st) && w < |st.workers|
    requires WorkerEnabled(c, st, st.workers[w], s)
    ensures Disciplined(c, ApplyWork(c, st, w, s))
  {
    if s.Lease? || s.Release? {
      LeaseReleaseDisciplined(c, st, w, s);
    } else if s.Take? {
      TakeDisciplined(c, st, w);
    } else if s.Answer? {
      AnswerDisciplined(c, st, w, s.kind, s.readAt);
    } else if s.Retry? {
      RetryDisciplined(c, st, w, s.readAt, s.u);
    } else if s.Requeue? {
      RequeueDisciplined(c, st, w, s.readAt);
    } else {
      QuietDisciplined(c, st, w, s);
    }
  }

  lemma MintDisciplined(c: Config, st: Sys, j: Job)
    requires GoodConfig(c) && Disciplined(c, st) && K.Balanced(st)
    requires j.relayId !in st.hist.births && j.attempt == 0 && j.storeId in st.stores
    ensures Disciplined(c, Minted(st, j))
  {
    var t := Minted(st, j);
    var mid := st.(hist := t.hist);
    Unseen(st, j.relayId);
    NewbornDisciplined(c, st, j.relayId, t.hist);
    EnqueueDisciplined(c, mid, j);
  }

  lemma NewbornDisciplined(c: Config, st: Sys, r: Id, k: History)
    requires GoodConfig(c) && Disciplined(c, st) && OnlyIn(st, -1, r) && SameBut(st.hist, k, r)
    requires PostsOf(k, r) == [] && RowsOf(k, r) == [] && SleptOf(k, r) == 0
    ensures Disciplined(c, st.(hist := k))
  {
    OthersKept(c, st, k, -1, r);
    P.EnvelopeGrows(c.policy, 0, c.policy.maxAttempts - 1);
    forall q: Id
      ensures Numbered(c, k, q)
    {
    }
  }

  lemma DisciplinedStep(c: Config, st: Sys, l: Label)
    requires GoodConfig(c) && Disciplined(c, st) && K.Balanced(st) && Enabled(c, st, l)
    ensures Disciplined(c, Apply(c, st, l))
  {
    hide Resting, Trying, Numbered, ApplyWork, K.Balanced;
    if l.Work? {
      WorkDisciplined(c, st, l.w, l.step);
    } else if l.RelayFrame? || l.ReplayDead? || l.ReplayJournal? {
      MintStepDisciplined(c, st, l);
    } else {
      RestDisciplined(c, st, l);
    }
  }

  lemma MintStepDisciplined(c: Config, st: Sys, l: Label)
    requires GoodConfig(c) && Disciplined(c, st) && K.Balanced(st) && Enabled(c, st, l)
    requires l.RelayFrame? || l.ReplayDead? || l.ReplayJournal?
    ensures Disciplined(c, Apply(c, st, l))
  {
    hide Resting, Trying, Numbered, HandOk, K.Balanced, Enqueued;
    MintDisciplined(c, st, A.MintedJob(c, st, l));
  }

  lemma RestDisciplined(c: Config, st: Sys, l: Label)
    requires Disciplined(c, st) && Enabled(c, st, l)
    requires !l.Work? && !l.RelayFrame? && !l.ReplayDead? && !l.ReplayJournal?
    ensures Disciplined(c, Apply(c, st, l))
  {
    hide Apply, Disciplined;
    RestShape(c, st, l);
    Unmoved(c, st, Apply(c, st, l));
  }

  lemma RestShape(c: Config, st: Sys, l: Label)
    requires Enabled(c, st, l) && !l.Work? && !l.RelayFrame? && !l.ReplayDead? && !l.ReplayJournal?
    ensures var t := Apply(c, st, l);
      && t.workers == st.workers
      && t.hist.posts == st.hist.posts && t.hist.rows == st.hist.rows && t.hist.slept == st.hist.slept
      && forall id, j :: id in t.broker && j in t.broker[id].ready ==> id in st.broker && j in st.broker[id].ready
  {
    hide Apply, B.EnsureView;
    if l.OpenQueue? {
      OpenQueueShape(c, st, l.id);
      EmptyQueue(st.broker, l.id, st.stores[l.id]);
    } else {
      AdminShape(c, st, l);
    }
  }

  lemma OpenQueueShape(c: Config, st: Sys, id: Id)
    requires Enabled(c, st, OpenQueue(id))
    ensures var d := st.stores[id];
      Apply(c, st, OpenQueue(id)) == st.(broker := B.EnsureView(st.broker, id, d.ordered, d.maxInFlight))
  {
  }

  lemma AdminShape(c: Config, st: Sys, l: Label)
    requires Enabled(c, st, l) && !l.Work? && !l.RelayFrame? && !l.ReplayDead? && !l.ReplayJournal? && !l.OpenQueue?
    ensures var t := Apply(c, st, l);
      && t.workers == st.workers && t.broker == st.broker
      && t.hist.posts == st.hist.posts && t.hist.rows == st.hist.rows && t.hist.slept == st.hist.slept
  {
    hide Enabled, Ensured, PlanOf, C.Settle, L.FirstAt, L.Without;
  }

  lemma EmptyQueue(v: B.View, id: Id, d: Store)
    ensures var u := B.EnsureView(v, id, d.ordered, d.maxInFlight);
      forall k, j :: k in u && j in u[k].ready ==> k in v && j in v[k].ready
  {
  }

  lemma Unmoved(c: Config, st: Sys, t: Sys)
    requires Disciplined(c, st) && t.workers == st.workers
    requires t.hist.posts == st.hist.posts && t.hist.rows == st.hist.rows && t.hist.slept == st.hist.slept
    requires forall id, j :: id in t.broker && j in t.broker[id].ready ==> id in st.broker && j in st.broker[id].ready
    ensures Disciplined(c, t)
  {
    hide HandOk, Numbered, Resting;
    SameVerdicts(c, st.hist, t.hist);
  }

  lemma {:induction false} DisciplinedHolds(c: Config, states: seq<Sys>, labels: seq<Label>, i: nat)
    requires GoodConfig(c) && IsRun(c, states, labels) && Initial(states[0]) && i <= |labels|
    ensures Disciplined(c, states[i])
  {
    if i == 0 {
      P.EnvelopeGrows(c.policy, 0, c.policy.maxAttempts - 1);
    } else {
      DisciplinedHolds(c, states, labels, i - 1);
      K.BalancedHolds(c, states, labels, i - 1);
      assert Steps(c, states[i - 1], labels[i - 1], states[i]);
      DisciplinedStep(c, states[i - 1], labels[i - 1]);
    }
  }

  /** Over every run: a relay's POSTs carry the attempt numbers 1, 2, ..., k with k at most
      maxAttempts, the journal rows of POSTs the same numbers but for at most the last, and the
      relay's backoff delays add up to at most both bounds of the policy. */
  lemma AttemptDiscipline(c: Config, states: seq<Sys>, labels: seq<Label>, i: nat, r: Id)
    requires GoodConfig(c) && IsRun(c, states, labels) && Initial(states[0]) && i <= |labels|
    ensures var h, max := states[i].hist, c.policy.maxAttempts;
      var k, n := |PostsOf(h, r)|, |RowsOf(h, r)|;
      && PostsOf(h, r) == Iota(k) && RowsOf(h, r) == Iota(n) && k - 1 <= n <= k <= max
      && SleptOf(h, r) <= (max - 1) * c.policy.cap
      && SleptOf(h, r) <= P.Doubled(c.policy.base, max - 1) - c.policy.base
  {
    DisciplinedHolds(c, states, labels, i);
    assert Numbered(c, states[i].hist, r);
    P.EnvelopeBound(c.policy, c.policy.maxAttempts - 1);
  }

  /** A job waiting to be leased has been POSTed exactly `attempt` times: what the gates refused
      or postponed cost it no attempt. */
  lemma WaitingCostsNoAttempt(c: Config, states: seq<Sys>, labels: seq<Label>, i: nat, id: Id, j: Job)
    requires GoodConfig(c) && IsRun(c, states, labels) && Initial(states[0]) && i <= |labels|
    requires id in states[i].broker && j in states[i].broker[id].ready
    ensures |PostsOf(states[i].hist, j.relayId)| ==
      |RowsOf(states[i].hist, j.relayId)| == j.attempt < c.policy.maxAttempts
  {
    DisciplinedHolds(c, states, labels, i);
    assert Resting(c, states[i].hist, j);
  }

  // ---------- The journal itself ----------

  /** The attempt numbers of the POST rows of relay r, in journal order. */
  function PostRows(rows: seq<Entry>, r: Id): seq<nat> {
    if rows == [] then []
    else PostRows(rows[..|rows| - 1], r) + PostRowOf(rows[|rows| - 1], r)
  }

  function PostRowOf(e: Entry, r: Id): seq<nat> {
    if e.relayId == r && e.kind.PostRow? then [e.attempt] else []
  }

  predicate EndsWith(s: seq<nat>, t: seq<nat>) {
    |t| <= |s| && s[|s| - |t|..] == t
  }

  lemma {:induction false} PostRowsConcat(a: seq<Entry>, b: seq<Entry>, r: Id)
    ensures PostRows(a + b, r) == PostRows(a, r) + PostRows(b, r)
  {
    if b == [] {
      assert a + b == a;
    } else {
      var c := a + b;
      assert c[..|c| - 1] == a + b[..|b| - 1] && c[|c| - 1] == b[|b| - 1];
      PostRowsConcat(a, b[..|b| - 1], r);
    }
  }

  /** A row is added, rows may be dropped from the front: what is left ends what there was. */
  lemma AppendShows(rows: seq<Entry>, e: Entry, cap: nat, all: seq<nat>, r: Id)
    requires EndsWith(all, PostRows(rows, r))
    ensures EndsWith(all + PostRowOf(e, r), PostRows(LastN(rows + [e], cap), r))
  {
    hide EndsWith, PostRows, PostRowOf;
    OneMoreShows(rows, e, all, r);
    var more, kept := rows + [e], LastN(rows + [e], cap);
    var cut := more[..|more| - |kept|];
    assert more == cut + kept;
    PostRowsConcat(cut, kept, r);
    Ends(all + PostRowOf(e, r), PostRows(cut, r), PostRows(kept, r));
  }

  lemma OneMoreShows(rows: seq<Entry>, e: Entry, all: seq<nat>, r: Id)
    requires EndsWith(all, PostRows(rows, r))
    ensures EndsWith(all + PostRowOf(e, r), PostRows(rows + [e], r))
  {
    hide PostRowOf;
    assert (rows + [e])[..|rows|] == rows;
  }

  lemma Ends(s: seq<nat>, a: seq<nat>, b: seq<nat>)
    requires EndsWith(s, a + b)
    ensures EndsWith(s, b)
  {
    assert s[|s| - |b|..] == s[|s| - |a + b|..][|a|..];
  }

  /** The journal shows the latest POST rows of every relay. */
  ghost predicate Shown(st: Sys) {
    && (forall r: Id :: EndsWith(RowsOf(st.hist, r), PostRows(st.journal, r)))
    && (forall r :: r in st.hist.rows ==> r in st.hist.births)
  }

  lemma HeldIsBorn(st: Sys, w: nat)
    requires K.Balanced(st) && w < |st.workers| && st.workers[w].Held().Some?
    ensures st.workers[w].Held().value.relayId in st.hist.births
  {
    var r := st.workers[w].Held().value.relayId;
    A.CountPositive(st.workers, A.HoldsRelay(r));
    assert A.Selects(A.HoldsRelay(r), st.workers[w]);
    assert K.Tally(st, r) >= 1;
  }

  /** Only Answer and Note journal anything, and only Answer counts as a POST row. */
  lemma QuietJournal(c: Config, st: Sys, w: nat, s: WorkerStep)
    requires w < |st.workers| && WorkerEnabled(c, st, st.workers[w], s) && !s.Answer? && !s.Note?
    ensures ApplyWork(c, st, w, s).hist.rows == st.hist.rows && ApplyWork(c, st, w, s).journal == st.journal
  {
    hide ApplyWork;
    if s.Bury? || s.GiveUp? {
      QuietBuryHand(c, st, w, s);
    } else if s.Allow? || s.Take? || s.Tell? {
      QuietGate(c, st, w, s);
    } else {
      QuietRest(c, st, w, s);
    }
  }

  lemma QuietGate(c: Config, st: Sys, w: nat, s: WorkerStep)
    requires w < |st.workers| && WorkerEnabled(c, st, st.workers[w], s) && (s.Allow? || s.Take? || s.Tell?)
    ensures ApplyWork(c, st, w, s).hist.rows == st.hist.rows && ApplyWork(c, st, w, s).journal == st.journal
  {
    hide C.AllowOf, R.TakeOf, C.FailureOf, Ensured;
  }

  lemma QuietRest(c: Config, st: Sys, w: nat, s: WorkerStep)
    requires w < |st.workers| && WorkerEnabled(c, st, st.workers[w], s)
    requires s.Lease? || s.LookUp? || s.Requeue? || s.Deliver? || s.Retry? || s.Release?
    ensures ApplyWork(c, st, w, s).hist.rows == st.hist.rows && ApplyWork(c, st, w, s).journal == st.journal
  {
    hide Enqueued, P.Delay, B.LeaseView, B.ReleaseView;
  }

  lemma BuriedQuiet(c: Config, st: Sys, j: Job, reason: Reason, at: Time)
    ensures var t := Buried(c, st, j, reason, at);
      && t.hist == st.hist.(evicted := t.hist.evicted) && t.journal == st.journal
      && t.workers == st.workers && t.broker == st.broker
  {
  }

  /** The row a step journals. */
  function RowOf(p: Phase, s: WorkerStep): Entry
    requires (s.Answer? && p.Posting?) || (s.Note? && p.Noting?)
  {
    EntryFromJob(p.job, if s.Answer? then PostRow(s.kind) else p.row, s.readAt)
  }

  lemma RowJournaled(c: Config, st: Sys, w: nat, s: WorkerStep, r: Id)
    requires w < |st.workers| && WorkerEnabled(c, st, st.workers[w], s) && (s.Answer? || s.Note?) && Notes(st.workers)
    ensures var t, e := ApplyWork(c, st, w, s), RowOf(st.workers[w], s);
      && t.journal == LastN(st.journal + [e], c.logCap)
      && RowsOf(t.hist, r) == RowsOf(st.hist, r) + PostRowOf(e, r)
      && t.hist.rows.Keys == st.hist.rows.Keys + if s.Answer? then {st.workers[w].job.relayId} else {}
  {
  }

  /** The rows notes are made of are not POST rows. */
  ghost predicate Notes(ws: seq<Phase>) {
    forall w :: 0 <= w < |ws| && (ws[w].Noting? || ws[w].Deferred?) ==> !ws[w].row.PostRow?
  }

  lemma ShownWork(c: Config, st: Sys, w: nat, s: WorkerStep)
    requires Shown(st) && K.Balanced(st) && Notes(st.workers) && w < |st.workers|
    requires WorkerEnabled(c, st, st.workers[w], s)
    ensures Shown(ApplyWork(c, st, w, s))
  {
    hide ApplyWork, K.Balanced, PostRows, PostRowOf, EndsWith, LastN, RowOf;
    K.WorkMintsNothing(c, st, w, s);
    if s.Answer? || s.Note? {
      PosterIsBorn(st, w);
      forall r: Id
        ensures EndsWith(RowsOf(ApplyWork(c, st, w, s).hist, r), PostRows(ApplyWork(c, st, w, s).journal, r))
      {
        RowJournaled(c, st, w, s, r);
        AppendShows(st.journal, RowOf(st.workers[w], s), c.logCap, RowsOf(st.hist, r), r);
      }
      RowJournaled(c, st, w, s, "");
    } else {
      QuietJournal(c, st, w, s);
    }
  }

  lemma PosterIsBorn(st: Sys, w: nat)
    requires K.Balanced(st) && w < |st.workers|
    ensures st.workers[w].Posting? ==> st.workers[w].job.relayId in st.hist.births
  {
    if st.workers[w].Posting? {
      HeldIsBorn(st, w);
    }
  }

  lemma NotesStep(c: Config, st: Sys, l: Label)
    requires Notes(st.workers) && Enabled(c, st, l)
    ensures Notes(Apply(c, st, l).workers)
  {
    hide ApplyWork;
    if l.Work? {
      NotesWork(c, st, l.w, l.step);
    }
  }

  lemma NotesWork(c: Config, st: Sys, w: nat, s: WorkerStep)
    requires Notes(st.workers) && w < |st.workers| && WorkerEnabled(c, st, st.workers[w], s)
    ensures Notes(ApplyWork(c, st, w, s).workers)
  {
    hide C.AllowOf, R.TakeOf, C.FailureOf, Enqueued, Buried, K.ReasonOf;
    if s.Bury? || s.GiveUp? {
      K.BuryShape(c, st, w, s);
      K.BuriedWorkers(c, st, st.workers[w].job, K.ReasonOf(st.workers[w], s), s.readAt);
    }
  }

  lemma ShownStep(c: Config, st: Sys, l: Label)
    requires Shown(st) && K.Balanced(st) && Notes(st.workers) && Enabled(c, st, l)
    ensures Shown(Apply(c, st, l))
  {
    hide ApplyWork, K.Balanced, PostRows, EndsWith;
    if l.Work? {
      ShownWork(c, st, l.w, l.step);
    } else if l.RelayFrame? || l.ReplayDead? || l.ReplayJournal? {
      ShownMint(st, A.MintedJob(c, st, l));
      assert Shown(Minted(st, A.MintedJob(c, st, l)));
    }
  }

  lemma ShownMint(st: Sys, j: Job)
    requires Shown(st) && j.relayId !in st.hist.births && j.storeId in st.stores
    ensures Shown(Minted(st, j))
  {
    var t := Minted(st, j);
    forall r: Id
      ensures EndsWith(RowsOf(t.hist, r), PostRows(t.journal, r))
    {
      assert EndsWith(RowsOf(st.hist, r), PostRows(st.journal, r));
    }
  }

  lemma {:induction false} ShownHolds(c: Config, states: seq<Sys>, labels: seq<Label>, i: nat)
    requires IsRun(c, states, labels) && Initial(states[0]) && i <= |labels|
    ensures Shown(states[i]) && Notes(states[i].workers)
  {
    hide Enabled, Apply, K.Balanced, PostRows, EndsWith;
    if i > 0 {
      ShownHolds(c, states, labels, i - 1);
      K.BalancedHolds(c, states, labels, i - 1);
      assert Steps(c, states[i - 1], labels[i - 1], states[i]);
      ShownStep(c, states[i - 1], labels[i - 1]);
      NotesStep(c, states[i - 1], labels[i - 1]);
    } else {
      ShownInitially(states[0]);
    }
  }

  lemma ShownInitially(st: Sys)
    requires Initial(st)
    ensures Shown(st)
  {
  }

  /** In every reachable state the POST rows of a relay in the journal are numbered without gap or
      repeat, in order, up to the last number journaled, which is that of its last POST or the one
      before. */
  lemma JournalNumbers(c: Config, states: seq<Sys>, labels: seq<Label>, i: nat, r: Id)
    requires GoodConfig(c) && IsRun(c, states, labels) && Initial(states[0]) && i <= |labels|
    ensures var rows, n := PostRows(states[i].journal, r), |RowsOf(states[i].hist, r)|;
      && |rows| <= n && |PostsOf(states[i].hist, r)| - 1 <= n <= |PostsOf(states[i].hist, r)|
      && forall k :: 0 <= k < |rows| ==> rows[k] == n - |rows| + k + 1
  {
    var h, rows := states[i].hist, PostRows(states[i].journal, r);
    ShownHolds(c, states, labels, i);
    DisciplinedHolds(c, states, labels, i);
    assert Numbered(c, h, r);
    assert EndsWith(RowsOf(h, r), rows);
    forall k | 0 <= k < |rows|
      ensures rows[k] == |RowsOf(h, r)| - |rows| + k + 1
    {
      assert RowsOf(h, r)[|RowsOf(h, r)| - |rows|..][k] == RowsOf(h, r)[|RowsOf(h, r)| - |rows| + k];
    }
  }
}
