/** Conservation: every relay id ever minted is in exactly one place, over every run. */
module Ledger {
  import opened Common
  import opened Jobs
  import opened Routing
  import opened Delivery
  import B = Brokers
  import C = Breakers
  import R = Buckets
  import L = Lists
  import A = Accounts
  import N = JobCounts

  function Is(a: Id, b: Id): nat {
    if a == b then 1 else 0
  }

  /** How many waiting jobs carry relay id r. */
  ghost function Waiting(v: B.View, r: Id): nat {
    N.Waiting(v, N.WithRelay(r))
  }

  // ---------- The ledger ----------

  /** How often relay id r is anywhere: waiting, in a worker's hands, dead-lettered, delivered,
      evicted from the dead-letter queue, or consumed by a replay. */
  ghost function Tally(st: Sys, r: Id): nat {
    Waiting(st.broker, r) + A.Count(st.workers, A.HoldsRelay(r)) + L.DeadIds(st.dead)[r]
    + st.hist.delivered[r] + st.hist.evicted[r] + st.hist.consumed[r]
  }

  ghost predicate Balanced(st: Sys) {
    forall r: Id :: Tally(st, r) == if r in st.hist.births then 1 else 0
  }

  lemma BalancedInitially(st: Sys)
    requires Initial(st)
    ensures Balanced(st)
  {
    forall r: Id
      ensures Tally(st, r) == 0
    {
      A.CountPositive(st.workers, A.HoldsRelay(r));
    }
  }

  // ---------- What the steps do to it ----------

  lemma HandsKept(ws: seq<Phase>, w: nat, p: Phase, r: Id)
    requires w < |ws| && p.Held().Some? == ws[w].Held().Some?
    requires p.Held().Some? ==> p.Held().value.relayId == ws[w].Held().value.relayId
    ensures A.Count(ws[w := p], A.HoldsRelay(r)) == A.Count(ws, A.HoldsRelay(r))
  {
    A.CountUpdate(ws, w, p, A.HoldsRelay(r));
  }

  lemma HandsEmptied(ws: seq<Phase>, w: nat, p: Phase, r: Id)
    requires w < |ws| && p.Held().None? && ws[w].Held().Some?
    ensures A.Count(ws[w := p], A.HoldsRelay(r)) + Is(ws[w].Held().value.relayId, r) == A.Count(ws, A.HoldsRelay(r))
  {
    A.CountUpdate(ws, w, p, A.HoldsRelay(r));
  }

  lemma LeaseTally(c: Config, st: Sys, w: nat, j: Job, r: Id)
    requires w < |st.workers| && st.workers[w].Idle? && j.storeId in st.broker && j in st.broker[j.storeId].ready
    ensures Tally(At(st.(broker := B.LeaseView(st.broker, j.storeId, j)), w, Leased(j)), r) == Tally(st, r)
  {
    hide N.Waiting, B.LeaseView, A.Count;
    N.LeaseCount(st.broker, j.storeId, j, N.WithRelay(r));
    A.CountUpdate(st.workers, w, Leased(j), A.HoldsRelay(r));
  }

  lemma PutBackTally(st: Sys, w: nat, j: Job, p: Phase, r: Id)
    requires w < |st.workers| && st.workers[w].Held().Some? && p.Held().None?
    requires j.relayId == st.workers[w].Held().value.relayId && j.storeId in st.stores
    ensures Tally(At(st.(broker := Enqueued(st, j)), w, p), r) == Tally(st, r)
  {
    N.EnqueueCount(st.broker, j, st.stores[j.storeId].ordered, st.stores[j.storeId].maxInFlight, N.WithRelay(r));
    HandsEmptied(st.workers, w, p, r);
  }

  lemma BuryTally(c: Config, st: Sys, w: nat, reason: Reason, at: Time, p: Phase, r: Id)
    requires w < |st.workers| && st.workers[w].Held().Some? && p.Held().None?
    ensures Tally(At(Buried(c, st, st.workers[w].Held().value, reason, at), w, p), r) == Tally(st, r)
  {
    var it := DeadFromJob(st.workers[w].Held().value, reason, at);
    L.PushBalance(st.dead, it, c.deadCap);
    HandsEmptied(st.workers, w, p, r);
    assert (L.DeadIds(st.dead) + multiset{it.relayId})[r]
        == (L.DeadIds(LastN(st.dead + [it], c.deadCap)) + L.DeadIds(L.Dropped(st.dead, it, c.deadCap)))[r];
  }

  lemma DeliverTally(st: Sys, w: nat, p: Phase, r: Id)
    requires w < |st.workers| && st.workers[w].Held().Some? && p.Held().None?
    ensures var id := st.workers[w].Held().value.relayId;
      Tally(At(st.(hist := st.hist.(delivered := st.hist.delivered + multiset{id})), w, p), r) == Tally(st, r)
  {
    HandsEmptied(st.workers, w, p, r);
  }

  /** The tally reads only these. */
  lemma SameTally(st: Sys, t: Sys, r: Id)
    requires t.broker == st.broker && t.workers == st.workers && t.dead == st.dead
    requires t.hist.delivered == st.hist.delivered && t.hist.evicted == st.hist.evicted
    requires t.hist.consumed == st.hist.consumed
    ensures Tally(t, r) == Tally(st, r)
  {
  }

  lemma RetryTally(c: Config, st: Sys, w: nat, at: Time, u: real, r: Id)
    requires w < |st.workers| && WorkerEnabled(c, st, st.workers[w], Retry(at, u))
    ensures Tally(ApplyWork(c, st, w, Retry(at, u)), r) == Tally(st, r)
  {
    var p := st.workers[w];
    var j := Retried(c, p.job, at, u);
    PutBackTally(st, w, j, Finished(p.job.storeId), r);
    SameTally(At(st.(broker := Enqueued(st, j)), w, Finished(p.job.storeId)), ApplyWork(c, st, w, Retry(at, u)), r);
  }

  lemma GiveUpTally(c: Config, st: Sys, w: nat, at: Time, r: Id)
    requires w < |st.workers| && WorkerEnabled(c, st, st.workers[w], GiveUp(at))
    ensures Tally(ApplyWork(c, st, w, GiveUp(at)), r) == Tally(st, r)
  {
    var p := st.workers[w];
    if p.kind == Terminal {
      BuryTally(c, st, w, TerminalStatus, at, Finished(p.job.storeId), r);
    } else {
      BuryTally(c, st, w, AttemptsExhausted, at, Noting(p.job, TerminalNote), r);
    }
  }

  /** The steps that leave the job in the worker's hands, or find and leave them empty. */
  lemma QuietTally(c: Config, st: Sys, w: nat, s: WorkerStep, r: Id)
    requires w < |st.workers| && WorkerEnabled(c, st, st.workers[w], s)
    requires s.LookUp? || s.Allow? || s.Take? || s.Answer? || s.Tell? || s.Note?
    ensures Tally(ApplyWork(c, st, w, s), r) == Tally(st, r)
  {
    hide ApplyWork, Tally;
    QuietShape(c, st, w, s);
    var t := ApplyWork(c, st, w, s);
    HandsKept(st.workers, w, t.workers[w], r);
    RehandedTally(st, w, t.workers[w], r);
    SameTally(At(st, w, t.workers[w]), t, r);
  }

  lemma RehandedTally(st: Sys, w: nat, p: Phase, r: Id)
    requires w < |st.workers| && A.Count(st.workers[w := p], A.HoldsRelay(r)) == A.Count(st.workers, A.HoldsRelay(r))
    ensures Tally(At(st, w, p), r) == Tally(st, r)
  {
  }

  /** What is left of a step as far as Tally goes: the phase of its worker, which keeps its job. */
  ghost predicate Rephased(st: Sys, t: Sys, w: nat)
    requires w < |st.workers|
  {
    && |t.workers| == |st.workers| && t.workers == st.workers[w := t.workers[w]]
    && t.broker == st.broker && t.dead == st.dead
    && t.hist.delivered == st.hist.delivered && t.hist.evicted == st.hist.evicted && t.hist.consumed == st.hist.consumed
    && t.workers[w].Held().Some? == st.workers[w].Held().Some?
    && (t.workers[w].Held().Some? ==> t.workers[w].Held().value.relayId == st.workers[w].Held().value.relayId)
  }

  lemma QuietShape(c: Config, st: Sys, w: nat, s: WorkerStep)
    requires w < |st.workers| && WorkerEnabled(c, st, st.workers[w], s)
    requires s.LookUp? || s.Allow? || s.Take? || s.Answer? || s.Tell? || s.Note?
    ensures Rephased(st, ApplyWork(c, st, w, s), w)
  {
    hide Rephased;
    if s.Allow? || s.Take? || s.Tell? {
      GateShape(c, st, w, s);
    } else {
      RowShape(c, st, w, s);
    }
  }

  lemma GateShape(c: Config, st: Sys, w: nat, s: WorkerStep)
    requires w < |st.workers| && WorkerEnabled(c, st, st.workers[w], s) && (s.Allow? || s.Take? || s.Tell?)
    ensures Rephased(st, ApplyWork(c, st, w, s), w)
  {
    hide C.AllowOf, C.FailureOf, R.TakeOf, Ensured;
  }

  lemma RowShape(c: Config, st: Sys, w: nat, s: WorkerStep)
    requires w < |st.workers| && WorkerEnabled(c, st, st.workers[w], s) && (s.LookUp? || s.Answer? || s.Note?)
    ensures Rephased(st, ApplyWork(c, st, w, s), w)
  {
    hide LastN;
  }

  lemma BuryStepTally(c: Config, st: Sys, w: nat, at: Time, r: Id)
    requires w < |st.workers| && WorkerEnabled(c, st, st.workers[w], Bury(at))
    ensures Tally(ApplyWork(c, st, w, Bury(at)), r) == Tally(st, r)
  {
    BuryTally(c, st, w, StoreUnavailable, at, Noting(st.workers[w].job, TerminalNote), r);
  }

  lemma RequeueStepTally(c: Config, st: Sys, w: nat, at: Time, r: Id)
    requires w < |st.workers| && WorkerEnabled(c, st, st.workers[w], Requeue(at))
    ensures Tally(ApplyWork(c, st, w, Requeue(at)), r) == Tally(st, r)
  {
    var p := st.workers[w];
    PutBackTally(st, w, Postponed(p.job, at, p.wait), Noting(p.job, p.row), r);
  }

  lemma ReleaseStepTally(c: Config, st: Sys, w: nat, r: Id)
    requires w < |st.workers| && st.workers[w].Finished?
    ensures Tally(ApplyWork(c, st, w, Release), r) == Tally(st, r)
  {
    N.ReleaseCount(st.broker, st.workers[w].store, N.WithRelay(r));
    HandsKept(st.workers, w, Idle, r);
  }

  lemma LeaseStepTally(c: Config, st: Sys, w: nat, j: Job, r: Id)
    requires w < |st.workers| && WorkerEnabled(c, st, st.workers[w], Lease(j))
    ensures Tally(ApplyWork(c, st, w, Lease(j)), r) == Tally(st, r)
  {
    LeaseTally(c, st, w, j, r);
  }

  lemma WorkTally(c: Config, st: Sys, w: nat, s: WorkerStep, r: Id)
    requires w < |st.workers| && WorkerEnabled(c, st, st.workers[w], s)
    ensures Tally(ApplyWork(c, st, w, s), r) == Tally(st, r)
  {
    if s.Deliver? {
      DeliverTally(st, w, Finished(st.workers[w].job.storeId), r);
    } else if s.GiveUp? {
      GiveUpTally(c, st, w, s.readAt, r);
    } else if s.Retry? {
      RetryTally(c, st, w, s.readAt, s.u, r);
    } else if s.Lease? {
      LeaseStepTally(c, st, w, s.job, r);
    } else if s.Bury? {
      BuryStepTally(c, st, w, s.readAt, r);
    } else if s.Requeue? {
      RequeueStepTally(c, st, w, s.readAt, r);
    } else if s.Release? {
      ReleaseStepTally(c, st, w, r);
    } else {
      QuietTally(c, st, w, s, r);
    }
  }

  /** Minting adds the new id once, to its store's queue. */
  lemma MintTally(st: Sys, j: Job, r: Id)
    requires j.storeId in st.stores
    ensures Tally(Minted(st, j), r) == Tally(st, r) + Is(j.relayId, r)
    ensures Minted(st, j).hist.births.Keys == st.hist.births.Keys + {j.relayId}
  {
    N.EnqueueCount(st.broker, j, st.stores[j.storeId].ordered, st.stores[j.storeId].maxInFlight, N.WithRelay(r));
  }

  lemma MintStepTally(c: Config, st: Sys, l: Label, r: Id)
    requires Enabled(c, st, l) && (l.RelayFrame? || l.ReplayDead? || l.ReplayJournal?)
    ensures Tally(Apply(c, st, l), r) == Tally(st, r) + Is(l.relay, r)
  {
    MintTally(st, A.MintedJob(c, st, l), r);
  }

  lemma RemoveTally(c: Config, st: Sys, of: Id, r: Id)
    requires Enabled(c, st, RemoveDead(of))
    ensures Tally(Apply(c, st, RemoveDead(of)), r) == Tally(st, r)
  {
    if L.FirstAt(st.dead, of).Some? {
      L.RemoveBalance(st.dead, of);
      assert L.DeadIds(st.dead)[r] == (L.DeadIds(L.Without(st.dead, of)) + multiset{of})[r];
    }
  }

  lemma AdminTally(c: Config, st: Sys, l: Label, r: Id)
    requires Enabled(c, st, l)
    requires l.AdvanceTo? || l.CreateStore? || l.SetEnabled? || l.OpenGates? || l.Observe? || l.AcceptFrame?
    ensures Tally(Apply(c, st, l), r) == Tally(st, r)
  {
    SameTally(st, Apply(c, st, l), r);
  }

  /** Steps of everything but the workers. */
  lemma OtherTally(c: Config, st: Sys, l: Label, r: Id)
    requires Enabled(c, st, l) && !l.Work?
    ensures Tally(Apply(c, st, l), r) == Tally(st, r) + Is2(A.Mints(l), r)
  {
    if l.RelayFrame? || l.ReplayDead? || l.ReplayJournal? {
      MintStepTally(c, st, l, r);
    } else if l.RemoveDead? {
      RemoveTally(c, st, l.of, r);
    } else if l.OpenQueue? {
      N.EnsureCount(st.broker, l.id, st.stores[l.id].ordered, st.stores[l.id].maxInFlight, N.WithRelay(r));
    } else {
      AdminTally(c, st, l, r);
    }
  }

  function Is2(o: Option<Id>, r: Id): nat {
    if o == Some(r) then 1 else 0
  }

  lemma QuietHistory(c: Config, st: Sys, w: nat, s: WorkerStep)
    requires w < |st.workers| && WorkerEnabled(c, st, st.workers[w], s)
    requires s.Lease? || s.LookUp? || s.Allow? || s.Requeue? || s.Tell? || s.Note? || s.Release?
    ensures ApplyWork(c, st, w, s).hist == st.hist
  {
  }

  lemma WorkMintsNothing(c: Config, st: Sys, w: nat, s: WorkerStep)
    requires w < |st.workers| && WorkerEnabled(c, st, st.workers[w], s)
    ensures var h := ApplyWork(c, st, w, s).hist; h.births == st.hist.births && h.accepted == st.hist.accepted
  {
    hide ApplyWork, Buried;
    if s.Take? || s.Answer? || s.Deliver? || s.Retry? {
      NotingMintsNothing(c, st, w, s);
    } else if s.Bury? || s.GiveUp? {
      BuryShape(c, st, w, s);
      BuriedMintsNothing(c, st, st.workers[w].job, ReasonOf(st.workers[w], s), s.readAt);
    } else {
      QuietHistory(c, st, w, s);
    }
  }

  lemma NotingMintsNothing(c: Config, st: Sys, w: nat, s: WorkerStep)
    requires w < |st.workers| && WorkerEnabled(c, st, st.workers[w], s)
    requires s.Take? || s.Answer? || s.Deliver? || s.Retry?
    ensures var h := ApplyWork(c, st, w, s).hist; h.births == st.hist.births && h.accepted == st.hist.accepted
  {
    hide ApplyWork;
    if s.Take? {
      TakeMintsNothing(c, st, w);
    } else {
      RowMintsNothing(c, st, w, s);
    }
  }

  lemma TakeMintsNothing(c: Config, st: Sys, w: nat)
    requires w < |st.workers| && WorkerEnabled(c, st, st.workers[w], Take)
    ensures var h := ApplyWork(c, st, w, Take).hist; h.births == st.hist.births && h.accepted == st.hist.accepted
  {
    hide TakeStep;
    TakenMintsNothing(st, w, st.workers[w].job);
  }

  lemma TakenMintsNothing(st: Sys, w: nat, j: Job)
    requires w < |st.workers| && j.storeId in st.gates.buckets && st.gates.buckets[j.storeId].rate > 0.0
    ensures var h := TakeStep(st, w, j).hist; h.births == st.hist.births && h.accepted == st.hist.accepted
  {
    hide R.TakeOf;
  }

  lemma RowMintsNothing(c: Config, st: Sys, w: nat, s: WorkerStep)
    requires w < |st.workers| && WorkerEnabled(c, st, st.workers[w], s) && (s.Answer? || s.Deliver? || s.Retry?)
    ensures var h := ApplyWork(c, st, w, s).hist; h.births == st.hist.births && h.accepted == st.hist.accepted
  {
    hide Enqueued, LastN, P.Delay;
  }

  lemma BuriedMintsNothing(c: Config, st: Sys, j: Job, reason: Reason, at: Time)
    ensures var h := Buried(c, st, j, reason, at).hist; h.births == st.hist.births && h.accepted == st.hist.accepted
  {
  }

  lemma BirthsGrow(c: Config, st: Sys, l: Label)
    requires Enabled(c, st, l)
    ensures Apply(c, st, l).hist.births.Keys ==
      st.hist.births.Keys + (if A.Mints(l).Some? then {A.Mints(l).value} else {})
    ensures A.Mints(l).Some? ==> A.Mints(l).value !in st.hist.births
  {
    if l.Work? {
      WorkMintsNothing(c, st, l.w, l.step);
    } else if l.RelayFrame? || l.ReplayDead? || l.ReplayJournal? {
      MintTally(st, A.MintedJob(c, st, l), l.relay);
    }
  }

  lemma BalancedStep(c: Config, st: Sys, l: Label)
    requires Balanced(st) && Enabled(c, st, l)
    ensures Balanced(Apply(c, st, l))
  {
    hide ApplyWork, Tally;
    var t := Apply(c, st, l);
    BirthsGrow(c, st, l);
    forall r: Id
      ensures Tally(t, r) == if r in t.hist.births then 1 else 0
    {
      assert Tally(st, r) == if r in st.hist.births then 1 else 0;
      if l.Work? {
        WorkTally(c, st, l.w, l.step, r);
      } else {
        OtherTally(c, st, l, r);
      }
    }
  }

  lemma {:induction false} BalancedHolds(c: Config, states: seq<Sys>, labels: seq<Label>, i: nat)
    requires IsRun(c, states, labels) && Initial(states[0]) && i <= |labels|
    ensures Balanced(states[i])
  {
    if i == 0 {
      BalancedInitially(states[0]);
    } else {
      BalancedHolds(c, states, labels, i - 1);
      assert Steps(c, states[i - 1], labels[i - 1], states[i]);
      BalancedStep(c, states[i - 1], labels[i - 1]);
    }
  }

  /** Conservation: in every reachable state every relay id minted so far is in exactly one place,
      once, and no other id is anywhere. */
  lemma Conservation(c: Config, states: seq<Sys>, labels: seq<Label>, i: nat, r: Id)
    requires IsRun(c, states, labels) && Initial(states[0]) && i <= |labels|
    ensures Tally(states[i], r) == if r in states[i].hist.births then 1 else 0
  {
    BalancedHolds(c, states, labels, i);
  }

  /** So the Get and the Remove of a replay find the same dead letter. */
  lemma ReplayTakesWhatItRead(c: Config, states: seq<Sys>, labels: seq<Label>, i: nat, of: Id)
    requires IsRun(c, states, labels) && Initial(states[0]) && i <= |labels|
    ensures L.LastAt(states[i].dead, of) == L.FirstAt(states[i].dead, of)
  {
    Conservation(c, states, labels, i, of);
    L.GetIsRemove(states[i].dead, of);
  }

  // ---------- Dead-lettered at most once ----------

  /** How often relay id r has been dead-lettered and is still there, was evicted, or was consumed. */
  ghost function Gone(st: Sys, r: Id): nat {
    L.DeadIds(st.dead)[r] + st.hist.evicted[r] + st.hist.consumed[r]
  }

  /** Worker w's step pushes relay r to the dead letters. */
  ghost predicate Buries(st: Sys, l: Label, r: Id) {
    && l.Work? && (l.step.Bury? || l.step.GiveUp?) && l.w < |st.workers|
    && st.workers[l.w].Held().Some? && st.workers[l.w].Held().value.relayId == r
  }

  lemma BuriedGone(c: Config, st: Sys, j: Job, reason: Reason, at: Time, r: Id)
    ensures Gone(Buried(c, st, j, reason, at), r) == Gone(st, r) + Is(j.relayId, r)
  {
    var it := DeadFromJob(j, reason, at);
    L.PushBalance(st.dead, it, c.deadCap);
    assert (L.DeadIds(st.dead) + multiset{it.relayId})[r]
        == (L.DeadIds(LastN(st.dead + [it], c.deadCap)) + L.DeadIds(L.Dropped(st.dead, it, c.deadCap)))[r];
  }

  lemma WorkGone(c: Config, st: Sys, w: nat, s: WorkerStep, r: Id)
    requires w < |st.workers| && WorkerEnabled(c, st, st.workers[w], s)
    ensures Gone(ApplyWork(c, st, w, s), r) == Gone(st, r) + if Buries(st, Work(w, s), r) then 1 else 0
  {
    hide ApplyWork, Buried;
    if s.Bury? || s.GiveUp? {
      BuryShape(c, st, w, s);
      BuriedGone(c, st, st.workers[w].job, ReasonOf(st.workers[w], s), s.readAt, r);
    } else {
      WorkKeepsGone(c, st, w, s);
    }
  }

  /** The reason a burial gives. */
  function ReasonOf(p: Phase, s: WorkerStep): Reason {
    if s.Bury? then StoreUnavailable
    else if p.Settling? && p.kind == Terminal then TerminalStatus else AttemptsExhausted
  }

  lemma BuryShape(c: Config, st: Sys, w: nat, s: WorkerStep)
    requires w < |st.workers| && WorkerEnabled(c, st, st.workers[w], s) && (s.Bury? || s.GiveUp?)
    ensures var t, u := ApplyWork(c, st, w, s), Buried(c, st, st.workers[w].job, ReasonOf(st.workers[w], s), s.readAt);
      && t.dead == u.dead && t.hist == u.hist && t.journal == u.journal && t.broker == u.broker
      && |t.workers| == |u.workers| && t.workers == u.workers[w := t.workers[w]]
      && (t.workers[w].Finished? || (t.workers[w].Noting? && t.workers[w].row == TerminalNote))
  {
    hide Buried;
    BuriedWorkers(c, st, st.workers[w].job, ReasonOf(st.workers[w], s), s.readAt);
  }

  lemma BuriedWorkers(c: Config, st: Sys, j: Job, reason: Reason, at: Time)
    ensures Buried(c, st, j, reason, at).workers == st.workers
  {
  }

  lemma WorkKeepsGone(c: Config, st: Sys, w: nat, s: WorkerStep)
    requires w < |st.workers| && WorkerEnabled(c, st, st.workers[w], s) && !s.Bury? && !s.GiveUp?
    ensures var t := ApplyWork(c, st, w, s);
      t.dead == st.dead && t.hist.evicted == st.hist.evicted && t.hist.consumed == st.hist.consumed
  {
  }

  lemma GoneStep(c: Config, st: Sys, l: Label, r: Id)
    requires Enabled(c, st, l)
    ensures Gone(Apply(c, st, l), r) == Gone(st, r) + if Buries(st, l, r) then 1 else 0
  {
    if l.Work? {
      WorkGone(c, st, l.w, l.step, r);
    } else if l.RemoveDead? && L.FirstAt(st.dead, l.of).Some? {
      L.RemoveBalance(st.dead, l.of);
      assert L.DeadIds(st.dead)[r] == (L.DeadIds(L.Without(st.dead, l.of)) + multiset{l.of})[r];
    }
  }

  lemma {:induction false} GoneStays(c: Config, states: seq<Sys>, labels: seq<Label>, i: nat, k: nat, r: Id)
    requires IsRun(c, states, labels) && i <= k <= |labels|
    ensures Gone(states[i], r) <= Gone(states[k], r)
    decreases k
  {
    if i < k {
      GoneStays(c, states, labels, i, k - 1, r);
      assert Steps(c, states[k - 1], labels[k - 1], states[k]);
      GoneStep(c, states[k - 1], labels[k - 1], r);
    }
  }

  /** No relay is dead-lettered twice in a run. */
  lemma DeadLetteredOnce(c: Config, states: seq<Sys>, labels: seq<Label>, i: nat, k: nat, r: Id)
    requires IsRun(c, states, labels) && Initial(states[0]) && i < k < |labels|
    requires Buries(states[i], labels[i], r)
    ensures !Buries(states[k], labels[k], r)
  {
    assert Steps(c, states[i], labels[i], states[i + 1]);
    GoneStep(c, states[i], labels[i], r);
    GoneStays(c, states, labels, i + 1, k, r);
    Conservation(c, states, labels, k, r);
    A.CountPositive(states[k].workers, A.HoldsRelay(r));
    if Buries(states[k], labels[k], r) {
      assert A.Selects(A.HoldsRelay(r), states[k].workers[labels[k].w]);
    }
  }

  // ---------- The item a replay removes ----------

  /** A dead letter of relay r, if any. */
  function DeadOf(st: Sys, r: Id): Option<DeadItem> {
    match L.FirstAt(st.dead, r)
    case None => None
    case Some(i) => Some(st.dead[i])
  }

  /** The dead letters that have left the queue for good. */
  function Left(st: Sys, r: Id): nat {
    st.hist.evicted[r] + st.hist.consumed[r]
  }

  lemma LeftStep(c: Config, st: Sys, l: Label, r: Id)
    requires Enabled(c, st, l)
    ensures Left(st, r) <= Left(Apply(c, st, l), r)
  {
    hide ApplyWork;
    if l.Work? {
      LeftWork(c, st, l.w, l.step, r);
    }
  }

  lemma LeftWork(c: Config, st: Sys, w: nat, s: WorkerStep, r: Id)
    requires w < |st.workers| && WorkerEnabled(c, st, st.workers[w], s)
    ensures Left(st, r) <= Left(ApplyWork(c, st, w, s), r)
  {
    if !s.Bury? && !s.GiveUp? {
      WorkKeepsGone(c, st, w, s);
    }
  }

  /** A dead letter found after a step was there before it, or is the one the step has pushed. */
  lemma DeadFrom(c: Config, st: Sys, l: Label, it: DeadItem)
    requires Enabled(c, st, l) && it in Apply(c, st, l).dead
    ensures it in st.dead || Buries(st, l, it.relayId)
  {
    hide ApplyWork;
    if l.Work? && !l.step.Bury? && !l.step.GiveUp? {
      WorkKeepsGone(c, st, l.w, l.step);
    } else if l.Work? {
      BuriedFrom(c, st, l.w, l.step, it);
    }
  }

  lemma BuriedFrom(c: Config, st: Sys, w: nat, s: WorkerStep, it: DeadItem)
    requires w < |st.workers| && WorkerEnabled(c, st, st.workers[w], s) && (s.Bury? || s.GiveUp?)
    requires it in ApplyWork(c, st, w, s).dead
    ensures it in st.dead || Buries(st, Work(w, s), it.relayId)
  {
    hide ApplyWork, ReasonOf;
    BuryShape(c, st, w, s);
    var x := DeadFromJob(st.workers[w].job, ReasonOf(st.workers[w], s), s.readAt);
    assert it in st.dead + [x];
  }

  /** No relay is dead twice at a time. */
  lemma DeadUnique(st: Sys, a: DeadItem, b: DeadItem)
    requires Balanced(st) && a in st.dead && b in st.dead && a.relayId == b.relayId
    ensures a == b
  {
    var i :| 0 <= i < |st.dead| && st.dead[i] == a;
    var k :| 0 <= k < |st.dead| && st.dead[k] == b;
    assert Tally(st, a.relayId) <= 1;
    if i != k {
      L.TwiceCounted(L.Ids(st.dead), Min(i, k), Max(i, k));
    }
  }

  /** While a relay stays dead, its dead letter stays the same. */
  lemma DeadStays(c: Config, st: Sys, l: Label, r: Id)
    requires Balanced(st) && Enabled(c, st, l) && DeadOf(st, r).Some? && DeadOf(Apply(c, st, l), r).Some?
    ensures DeadOf(Apply(c, st, l), r) == DeadOf(st, r)
  {
    hide Apply;
    var a, b := DeadOf(st, r).value, DeadOf(Apply(c, st, l), r).value;
    DeadFrom(c, st, l, b);
    DeadNotBuried(st, l, r);
    DeadUnique(st, a, b);
  }

  /** A dead relay is in nobody's hands, so nobody can bury it. */
  lemma DeadNotBuried(st: Sys, l: Label, r: Id)
    requires Balanced(st) && DeadOf(st, r).Some?
    ensures !Buries(st, l, r)
  {
    assert Tally(st, r) <= 1;
    DeadCounted(st, r);
    A.CountPositive(st.workers, A.HoldsRelay(r));
    if Buries(st, l, r) {
      assert A.Selects(A.HoldsRelay(r), st.workers[l.w]);
    }
  }

  /** Dead at two instants, dead in between: what has left the queue does not come back. */
  lemma {:induction false} DeadBetween(c: Config, states: seq<Sys>, labels: seq<Label>, i: nat, k: nat, r: Id)
    requires IsRun(c, states, labels) && Initial(states[0]) && i <= k <= |labels|
    requires DeadOf(states[i], r).Some? && DeadOf(states[k], r).Some?
    ensures DeadOf(states[k], r) == DeadOf(states[i], r)
    decreases k
  {
    hide Enabled, Apply, DeadOf, Gone, Left, Balanced;
    if i < k {
      var st, l := states[k - 1], labels[k - 1];
      assert Steps(c, st, l, states[k]);
      BalancedHolds(c, states, labels, k - 1);
      GoneStays(c, states, labels, i, k - 1, r);
      LeftStep(c, st, l, r);
      BalancedHolds(c, states, labels, k);
      NotBack(states[i], st, states[k], r);
      DeadStays(c, st, l, r);
      DeadBetween(c, states, labels, i, k - 1, r);
    }
  }

  lemma DeadCounted(st: Sys, r: Id)
    ensures DeadOf(st, r).Some? <==> L.DeadIds(st.dead)[r] > 0
  {
    if DeadOf(st, r).Some? {
      assert L.Ids(st.dead)[L.FirstAt(st.dead, r).value] == r;
      assert r in L.DeadIds(st.dead);
    }
    if L.DeadIds(st.dead)[r] > 0 {
      assert r in L.Ids(st.dead);
      var i :| 0 <= i < |L.Ids(st.dead)| && L.Ids(st.dead)[i] == r;
      assert st.dead[i].relayId == r;
    }
  }

  /** What has left the queue does not come back. */
  lemma NotBack(first: Sys, st: Sys, t: Sys, r: Id)
    requires DeadOf(first, r).Some? && DeadOf(t, r).Some?
    requires Gone(first, r) <= Gone(st, r) && Left(st, r) <= Left(t, r) && Balanced(t)
    ensures DeadOf(st, r).Some?
  {
    DeadCounted(first, r);
    DeadCounted(st, r);
    DeadCounted(t, r);
    assert Tally(t, r) <= 1;
  }

  /** Over any run: if the Remove of a replay finds an item, it is the item the Get of that replay
      read, whatever happened in between. */
  lemma RemoveFindsWhatGetRead(c: Config, states: seq<Sys>, labels: seq<Label>, i: nat, k: nat, of: Id, relay: Id,
                               at: Time)
    requires IsRun(c, states, labels) && Initial(states[0]) && i < k < |labels|
    requires labels[i] == ReplayDead(of, relay, at) && labels[k] == RemoveDead(of)
    requires L.FirstAt(states[k].dead, of).Some?
    ensures L.LastAt(states[i].dead, of).Some?
    ensures states[k].dead[L.FirstAt(states[k].dead, of).value] == states[i].dead[L.LastAt(states[i].dead, of).value]
  {
    assert Steps(c, states[i], labels[i], states[i + 1]);
    ReplayTakesWhatItRead(c, states, labels, i, of);
    DeadBetween(c, states, labels, i, k, of);
  }

  // ---------- Two replays of one dead letter ----------

  /** Only a RemoveDead of r consumes r. */
  lemma ConsumedStep(c: Config, st: Sys, l: Label, r: Id)
    requires Enabled(c, st, l)
    ensures Apply(c, st, l).hist.consumed[r] ==
      st.hist.consumed[r] + if l == RemoveDead(r) && DeadOf(st, r).Some? then 1 else 0
  {
    hide ApplyWork;
    if l.Work? {
      ConsumedWork(c, st, l.w, l.step);
    }
  }

  lemma ConsumedWork(c: Config, st: Sys, w: nat, s: WorkerStep)
    requires w < |st.workers| && WorkerEnabled(c, st, st.workers[w], s)
    ensures ApplyWork(c, st, w, s).hist.consumed == st.hist.consumed
  {
    hide ApplyWork, Buried, ReasonOf;
    if s.Bury? || s.GiveUp? {
      BuryShape(c, st, w, s);
      BuriedConsumes(c, st, st.workers[w].job, ReasonOf(st.workers[w], s), s.readAt);
    } else {
      WorkKeepsGone(c, st, w, s);
    }
  }

  lemma BuriedConsumes(c: Config, st: Sys, j: Job, reason: Reason, at: Time)
    ensures Buried(c, st, j, reason, at).hist.consumed == st.hist.consumed
  {
  }

  ghost predicate Unremoved(labels: seq<Label>, i: nat, k: nat, r: Id)
    requires k <= |labels|
  {
    forall m :: i <= m < k ==> labels[m] != RemoveDead(r)
  }

  /** What has left the queue between two instants, and by which door. */
  lemma {:induction false} LeftOver(c: Config, states: seq<Sys>, labels: seq<Label>, i: nat, k: nat, r: Id)
    requires IsRun(c, states, labels) && i <= k <= |labels|
    ensures Left(states[i], r) <= Left(states[k], r)
    ensures Unremoved(labels, i, k, r) ==> states[k].hist.consumed[r] == states[i].hist.consumed[r]
    decreases k
  {
    hide Enabled, Apply, Left, DeadOf;
    if i < k {
      LeftOver(c, states, labels, i, k - 1, r);
      assert Steps(c, states[k - 1], labels[k - 1], states[k]);
      LeftStep(c, states[k - 1], labels[k - 1], r);
      ConsumedStep(c, states[k - 1], labels[k - 1], r);
    }
  }

  lemma {:induction false} StoresGrow(c: Config, states: seq<Sys>, labels: seq<Label>, i: nat, k: nat, id: Id)
    requires IsRun(c, states, labels) && i <= k <= |labels| && id in states[i].stores
    ensures id in states[k].stores
    decreases k
  {
    hide Enabled, Apply;
    if i < k {
      StoresGrow(c, states, labels, i, k - 1, id);
      assert Steps(c, states[k - 1], labels[k - 1], states[k]);
      StoreKept(c, states[k - 1], labels[k - 1], id);
    }
  }

  lemma StoreKept(c: Config, st: Sys, l: Label, id: Id)
    requires Enabled(c, st, l) && id in st.stores
    ensures id in Apply(c, st, l).stores
  {
    hide ApplyWork;
    if l.Work? {
      A.AccountsStores(c, st, l.w, l.step);
    }
  }

  /** A relay that was dead is dead still, unless it was evicted or a RemoveDead has taken it. */
  lemma StillDeadIff(c: Config, states: seq<Sys>, labels: seq<Label>, i: nat, k: nat, of: Id)
    requires IsRun(c, states, labels) && Initial(states[0]) && i <= k <= |labels| && DeadOf(states[i], of).Some?
    ensures DeadOf(states[k], of).Some? <==> Unremoved(labels, i, k, of) && states[k].hist.evicted[of] == 0
  {
    hide Enabled, Apply, DeadOf;
    BalancedHolds(c, states, labels, i);
    BalancedHolds(c, states, labels, k);
    DeadCounted(states[i], of);
    DeadCounted(states[k], of);
    GoneStays(c, states, labels, i, k, of);
    LeftOver(c, states, labels, i, k, of);
    assert Tally(states[i], of) <= 1 && Tally(states[k], of) <= 1;
    forall m | i <= m < k && labels[m] == RemoveDead(of) && DeadOf(states[k], of).Some?
      ensures false
    {
      assert Steps(c, states[m], labels[m], states[m + 1]);
      GoneStays(c, states, labels, i, m, of);
      DeadCounted(states[m], of);
      LeftOver(c, states, labels, m, m + 1, of);
      LeftOver(c, states, labels, m + 1, k, of);
      ConsumedStep(c, states[m], labels[m], of);
    }
  }

  /** A dead letter that has been replayed can be replayed again, which makes two relays of it, for
      exactly as long as no replay of it has come to its Remove and the queue has not evicted it. */
  lemma ReplayedAgainIff(c: Config, states: seq<Sys>, labels: seq<Label>, i: nat, k: nat, of: Id,
                         first: Id, at: Time, second: Id, later: Time)
    requires IsRun(c, states, labels) && Initial(states[0]) && i < k <= |labels|
    requires labels[i] == ReplayDead(of, first, at) && second !in states[k].hist.births && later <= states[k].now
    ensures Enabled(c, states[k], ReplayDead(of, second, later)) <==>
      Unremoved(labels, i, k, of) && states[k].hist.evicted[of] == 0
  {
    hide Apply;
    assert Steps(c, states[i], labels[i], states[i + 1]);
    ReplayTakesWhatItRead(c, states, labels, i, of);
    ReplayTakesWhatItRead(c, states, labels, k, of);
    StillDeadIff(c, states, labels, i, k, of);
    if DeadOf(states[k], of).Some? {
      DeadBetween(c, states, labels, i, k, of);
      StoresGrow(c, states, labels, i, k, DeadOf(states[k], of).value.storeId);
    }
  }
}
