/** What each step of Delivery changes of the system, named part by part. */
module Effects {
  import opened Common
  import opened Jobs
  import opened Routing
  import opened Delivery
  import B = Brokers
  import C = Breakers
  import R = Buckets
  import G = Gates
  import L = Lists
  import P = Backoff

  // ---------- What a worker's step changes ----------

  /** t is st but for worker w, now in phase p, the four objects named, and the history. */
  ghost predicate Becomes(st: Sys, t: Sys, w: nat, p: Phase,
                          broker: B.View, gates: G.View, dead: seq<DeadItem>, journal: seq<Entry>) {
    && t.now == st.now && t.stores == st.stores && w < |st.workers| && t.workers == st.workers[w := p]
    && t.broker == broker && t.gates == gates && t.dead == dead && t.journal == journal
  }

  lemma LeaseEffect(c: Config, st: Sys, w: nat, j: Job) returns (t: Sys)
    requires w < |st.workers| && st.workers[w] == Idle && B.Leasable(st.broker, st.now, j.storeId, j)
    ensures Steps(c, st, Work(w, Lease(j)), t)
    ensures Becomes(st, t, w, Leased(j), B.LeaseView(st.broker, j.storeId, j), st.gates, st.dead, st.journal)
  {
    t := ApplyWork(c, st, w, Lease(j));
  }

  lemma LookUpEffect(c: Config, st: Sys, w: nat, j: Job) returns (t: Sys)
    requires w < |st.workers| && st.workers[w] == Leased(j)
    ensures Steps(c, st, Work(w, LookUp), t)
    ensures var p := if j.storeId in st.stores && st.stores[j.storeId].enabled then Checked(j) else Condemned(j);
      Becomes(st, t, w, p, st.broker, st.gates, st.dead, st.journal)
  {
    t := ApplyWork(c, st, w, LookUp);
  }

  lemma BuryEffect(c: Config, st: Sys, w: nat, j: Job) returns (t: Sys)
    requires w < |st.workers| && st.workers[w] == Condemned(j)
    ensures Steps(c, st, Work(w, Bury(st.now)), t)
    ensures var dead := LastN(st.dead + [DeadFromJob(j, StoreUnavailable, st.now)], c.deadCap);
      Becomes(st, t, w, Noting(j, TerminalNote), st.broker, st.gates, dead, st.journal)
  {
    t := ApplyWork(c, st, w, Bury(st.now));
  }

  lemma OpenGatesEffect(c: Config, st: Sys, w: nat, id: Id) returns (t: Sys)
    requires w < |st.workers| && id in st.stores && st.workers[w].Checked? && st.workers[w].job.storeId == id
    ensures Steps(c, st, OpenGates(w, id), t)
    ensures Becomes(st, t, w, st.workers[w], st.broker, Ensured(st, id), st.dead, st.journal)
    ensures var g, d := t.gates, st.stores[id];
      id in g.breakers && id in g.rates && g.rates[id] == G.RateSpec(d.rate, d.burst)
  {
    t := Apply(c, st, OpenGates(w, id));
  }

  lemma AllowEffect(c: Config, st: Sys, w: nat, j: Job) returns (t: Sys)
    requires w < |st.workers| && st.workers[w] == Checked(j) && j.storeId in st.stores
    requires j.storeId in st.gates.breakers && Ensured(st, j.storeId) == st.gates
    ensures Steps(c, st, Work(w, Allow), t)
    ensures var (b, dec) := C.AllowOf(st.gates.breakers[j.storeId], c.breaker, st.now);
      Becomes(st, t, w, if dec.allow then Admitted(j) else Deferred(j, 200 * MILLISECOND, SkippedOpen),
              st.broker, st.gates.(breakers := st.gates.breakers[j.storeId := b]), st.dead, st.journal)
  {
    t := ApplyWork(c, st, w, Allow);
  }

  lemma TakeEffect(c: Config, st: Sys, w: nat, j: Job) returns (t: Sys)
    requires w < |st.workers| && st.workers[w] == Admitted(j)
    requires j.storeId in st.gates.buckets && st.gates.buckets[j.storeId].rate > 0.0
    ensures Steps(c, st, Work(w, Take), t)
    ensures var (b, wait) := R.TakeOf(st.gates.buckets[j.storeId], st.now);
      Becomes(st, t, w, if wait > 0 then Deferred(j, wait, RateDelayed) else Posting(j.(attempt := j.attempt + 1)),
              st.broker, st.gates.(buckets := st.gates.buckets[j.storeId := b]), st.dead, st.journal)
  {
    t := ApplyWork(c, st, w, Take);
  }

  lemma RequeueEffect(c: Config, st: Sys, w: nat, j: Job, wait: Time, row: RowKind) returns (t: Sys)
    requires w < |st.workers| && st.workers[w] == Deferred(j, wait, row) && j.storeId in st.stores
    ensures Steps(c, st, Work(w, Requeue(st.now)), t)
    ensures Becomes(st, t, w, Noting(j, row), Enqueued(st, Postponed(j, st.now, wait)), st.gates, st.dead, st.journal)
  {
    t := ApplyWork(c, st, w, Requeue(st.now));
  }

  lemma NoteEffect(c: Config, st: Sys, w: nat, j: Job, row: RowKind) returns (t: Sys)
    requires w < |st.workers| && st.workers[w] == Noting(j, row)
    ensures Steps(c, st, Work(w, Note(st.now)), t)
    ensures Becomes(st, t, w, Finished(j.storeId), st.broker, st.gates, st.dead,
                    Journaled(c, st, EntryFromJob(j, row, st.now)))
  {
    t := ApplyWork(c, st, w, Note(st.now));
  }

  lemma AnswerEffect(c: Config, st: Sys, w: nat, j: Job, kind: Kind) returns (t: Sys)
    requires w < |st.workers| && st.workers[w] == Posting(j)
    ensures Steps(c, st, Work(w, Answer(kind, st.now)), t)
    ensures var journal := Journaled(c, st, EntryFromJob(j, PostRow(kind), st.now));
      Becomes(st, t, w, Answered(j, kind), st.broker, st.gates, st.dead, journal)
  {
    t := ApplyWork(c, st, w, Answer(kind, st.now));
  }

  lemma TellEffect(c: Config, st: Sys, w: nat, j: Job, kind: Kind) returns (t: Sys)
    requires w < |st.workers| && st.workers[w] == Answered(j, kind) && j.storeId in st.gates.breakers
    ensures Steps(c, st, Work(w, Tell), t)
    ensures var b := st.gates.breakers[j.storeId];
      var told := if kind == Success then C.SuccessOf(b) else C.FailureOf(b, c.breaker, st.now);
      Becomes(st, t, w, Settling(j, kind), st.broker, st.gates.(breakers := st.gates.breakers[j.storeId := told]),
              st.dead, st.journal)
  {
    t := ApplyWork(c, st, w, Tell);
  }

  lemma DeliverEffect(c: Config, st: Sys, w: nat, j: Job) returns (t: Sys)
    requires w < |st.workers| && st.workers[w] == Settling(j, Success)
    ensures Steps(c, st, Work(w, Deliver), t)
    ensures Becomes(st, t, w, Finished(j.storeId), st.broker, st.gates, st.dead, st.journal)
  {
    t := ApplyWork(c, st, w, Deliver);
  }

  lemma GiveUpEffect(c: Config, st: Sys, w: nat, j: Job, kind: Kind) returns (t: Sys)
    requires w < |st.workers| && st.workers[w] == Settling(j, kind)
    requires kind == Terminal || (kind == Retryable && P.Exhausted(c.policy, j.attempt))
    ensures Steps(c, st, Work(w, GiveUp(st.now)), t)
    ensures var reason := if kind == Terminal then TerminalStatus else AttemptsExhausted;
      var dead := LastN(st.dead + [DeadFromJob(j, reason, st.now)], c.deadCap);
      var p := if kind == Terminal then Finished(j.storeId) else Noting(j, TerminalNote);
      Becomes(st, t, w, p, st.broker, st.gates, dead, st.journal)
  {
    t := ApplyWork(c, st, w, GiveUp(st.now));
  }

  lemma RetryEffect(c: Config, st: Sys, w: nat, j: Job, u: real) returns (t: Sys)
    requires w < |st.workers| && st.workers[w] == Settling(j, Retryable) && j.storeId in st.stores
    requires !P.Exhausted(c.policy, j.attempt) && 0.0 <= u < 1.0
    ensures Steps(c, st, Work(w, Retry(st.now, u)), t)
    ensures Becomes(st, t, w, Finished(j.storeId), Enqueued(st, Retried(c, j, st.now, u)), st.gates, st.dead,
                    st.journal)
  {
    t := ApplyWork(c, st, w, Retry(st.now, u));
  }

  lemma ReleaseEffect(c: Config, st: Sys, w: nat, id: Id) returns (t: Sys)
    requires w < |st.workers| && st.workers[w] == Finished(id)
    ensures Steps(c, st, Work(w, Release), t)
    ensures Becomes(st, t, w, Idle, B.ReleaseView(st.broker, id), st.gates, st.dead, st.journal)
  {
    t := ApplyWork(c, st, w, Release);
  }

  // ---------- What a replay changes ----------

  lemma ReplayDeadEffect(c: Config, st: Sys, of: Id, newId: Id, it: DeadItem, j: Job) returns (t: Sys)
    requires newId !in st.hist.births && L.LastAt(st.dead, of).Some? && it == st.dead[L.LastAt(st.dead, of).value]
    requires JobFromDead(it, newId, st.now) == Some(j) && it.storeId in st.stores
    ensures Steps(c, st, ReplayDead(of, newId, st.now), t)
    ensures t.now == st.now && t.workers == st.workers && t.removals == st.removals + multiset{of}
    ensures t.stores == st.stores && t.broker == Enqueued(st, j) && t.gates == st.gates && t.dead == st.dead
    ensures t.journal == st.journal
  {
    t := Apply(c, st, ReplayDead(of, newId, st.now));
  }

  lemma RemoveDeadEffect(c: Config, st: Sys, of: Id) returns (t: Sys)
    requires of in st.removals
    ensures Steps(c, st, RemoveDead(of), t) && t.now == st.now && t.workers == st.workers
    ensures t.stores == st.stores && t.broker == st.broker && t.gates == st.gates
    ensures t.dead == L.Without(st.dead, of) && t.journal == st.journal
  {
    t := Apply(c, st, RemoveDead(of));
  }

  lemma ReplayJournalEffect(c: Config, st: Sys, of: Id, newId: Id, e: Entry, j: Job) returns (t: Sys)
    requires newId !in st.hist.births && L.LastAt(st.dead, of).None? && L.LastEntry(st.journal, of) == Some(e)
    requires JobFromEntry(e, newId, st.now) == Some(j) && e.storeId in st.stores
    ensures Steps(c, st, ReplayJournal(of, newId, st.now), t)
    ensures t.now == st.now && t.workers == st.workers
    ensures t.stores == st.stores && t.broker == Enqueued(st, j) && t.gates == st.gates && t.dead == st.dead
    ensures t.journal == st.journal
  {
    t := Apply(c, st, ReplayJournal(of, newId, st.now));
  }
}
