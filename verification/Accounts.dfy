/** Lease accounting: in-flight counters against the workers, over every run. */
module Accounts {
  import opened Common
  import opened Jobs
  import opened Routing
  import opened Delivery
  import B = Brokers

  // ---------- Counting workers ----------

  datatype Selector =
    | OnStore(id: Id)          // occupies a slot of this store
    | OnAny(ids: set<Id>)      // occupies a slot of one of these stores
    | Admitting(id: Id)        // let through by this store's breaker, before its bucket
    | Outstanding(id: Id)      // POST out on this store, or its answer not yet told to the breaker
    | HoldsRelay(relay: Id)    // is responsible for a job with this relay id
    | Holding                  // is responsible for a job
    | LetGo                    // its job is elsewhere, its slot not yet released

  predicate Selects(s: Selector, p: Phase) {
    match s
    case OnStore(id) => p.Slot() == Some(id)
    case OnAny(ids) => p.Slot().Some? && p.Slot().value in ids
    case Admitting(id) => p.Admitted? && p.job.storeId == id
    case Outstanding(id) => (p.Posting? || p.Answered?) && p.job.storeId == id
    case HoldsRelay(r) => p.Held().Some? && p.Held().value.relayId == r
    case Holding => p.Held().Some?
    case LetGo => p.Noting? || p.Finished?
  }

  function One(s: Selector, p: Phase): nat {
    if Selects(s, p) then 1 else 0
  }

  function Count(ws: seq<Phase>, s: Selector): nat {
    if ws == [] then 0 else Count(ws[..|ws| - 1], s) + One(s, ws[|ws| - 1])
  }

  lemma {:induction false} CountUpdate(ws: seq<Phase>, w: nat, p: Phase, s: Selector)
    requires w < |ws|
    ensures Count(ws[w := p], s) + One(s, ws[w]) == Count(ws, s) + One(s, p)
  {
    var n := |ws| - 1;
    if w < n {
      assert ws[w := p][..n] == ws[..n][w := p];
      CountUpdate(ws[..n], w, p, s);
    } else {
      assert ws[w := p][..n] == ws[..n];
    }
  }

  lemma {:induction false} CountPositive(ws: seq<Phase>, s: Selector)
    ensures Count(ws, s) > 0 <==> exists w :: 0 <= w < |ws| && Selects(s, ws[w])
  {
    if ws != [] {
      var n := |ws| - 1;
      CountPositive(ws[..n], s);
      if Count(ws[..n], s) > 0 {
        var w :| 0 <= w < n && Selects(s, ws[..n][w]);
        assert Selects(s, ws[w]);
      }
      if w :| 0 <= w < |ws| && Selects(s, ws[w]) {
        assert w < n ==> Selects(s, ws[..n][w]);
      }
    }
  }

  /** Fewer, when every phase counted by s is counted by t and one counted by t is not counted by s. */
  lemma {:induction false} CountWithin(ws: seq<Phase>, s: Selector, t: Selector)
    requires forall p: Phase :: Selects(s, p) ==> Selects(t, p)
    ensures Count(ws, s) <= Count(ws, t)
    ensures (exists w :: 0 <= w < |ws| && Selects(t, ws[w]) && !Selects(s, ws[w])) ==> Count(ws, s) < Count(ws, t)
  {
    if ws != [] {
      var n := |ws| - 1;
      CountWithin(ws[..n], s, t);
      if w :| 0 <= w < |ws| && Selects(t, ws[w]) && !Selects(s, ws[w]) {
        assert w < n ==> Selects(t, ws[..n][w]) && !Selects(s, ws[..n][w]);
      }
    }
  }

  lemma {:induction false} CountAtMost(ws: seq<Phase>, s: Selector)
    ensures Count(ws, s) <= |ws|
  {
    if ws != [] {
      CountAtMost(ws[..|ws| - 1], s);
    }
  }

  // ---------- The invariant ----------

  ghost predicate QueueOk(st: Sys, id: Id)
    requires id in st.broker
  {
    var q := st.broker[id];
    && id in st.stores && q.ordered == st.stores[id].ordered
    && q.maxFlight == B.NewQueue(st.stores[id].ordered, st.stores[id].maxInFlight).maxFlight
    && q.inFlight == Count(st.workers, OnStore(id)) <= q.maxFlight
    && forall j :: j in q.ready ==> j.storeId == id
  }

  ghost predicate Accounted(st: Sys) {
    && (forall id :: id in st.stores ==> st.stores[id].id == id && Normalized(st.stores[id]))
    && (forall id :: id in st.broker ==> QueueOk(st, id))
    && (forall w :: 0 <= w < |st.workers| && st.workers[w].Slot().Some? ==> st.workers[w].Slot().value in st.broker)
  }

  lemma {:induction false} NoneBusy(ws: seq<Phase>, id: Id)
    requires forall w :: 0 <= w < |ws| ==> ws[w].Slot() != Some(id)
    ensures Count(ws, OnStore(id)) == 0
  {
    CountPositive(ws, OnStore(id));
  }

  lemma AccountedInitially(st: Sys)
    requires Initial(st)
    ensures Accounted(st)
  {
  }

  lemma {:induction false} SameSlots(a: seq<Phase>, b: seq<Phase>, id: Id)
    requires |a| == |b| && forall w :: 0 <= w < |a| ==> a[w].Slot() == b[w].Slot()
    ensures Count(a, OnStore(id)) == Count(b, OnStore(id))
  {
    if a != [] {
      SameSlots(a[..|a| - 1], b[..|b| - 1], id);
    }
  }

  lemma EnqueueKept(st: Sys, j: Job)
    requires Accounted(st) && j.storeId in st.stores
    ensures Accounted(st.(broker := Enqueued(st, j)))
  {
    var t := st.(broker := Enqueued(st, j));
    forall id | id in t.broker
      ensures QueueOk(t, id)
    {
      if id in st.broker {
        assert QueueOk(st, id);
      } else {
        NoneBusy(st.workers, id);
      }
    }
  }

  predicate QueueMoved(q: B.QueueView, r: B.QueueView, slots: int) {
    && r.ordered == q.ordered && r.maxFlight == q.maxFlight && r.ready <= q.ready
    && r.inFlight == q.inFlight + slots && r.inFlight <= r.maxFlight
  }

  lemma SlotMoves(st: Sys, t: Sys, w: nat)
    requires Accounted(st) && w < |st.workers| == |t.workers| && t.stores == st.stores
    requires t.workers == st.workers[w := t.workers[w]] && t.broker.Keys == st.broker.Keys
    requires t.workers[w].Slot().Some? ==> t.workers[w].Slot().value in st.broker
    requires forall id :: id in st.broker ==>
      QueueMoved(st.broker[id], t.broker[id], One(OnStore(id), t.workers[w]) - One(OnStore(id), st.workers[w]))
    ensures Accounted(t)
  {
    forall id | id in t.broker
      ensures QueueOk(t, id)
    {
      assert QueueOk(st, id);
      CountUpdate(st.workers, w, t.workers[w], OnStore(id));
      assert forall j :: j in t.broker[id].ready ==> j in st.broker[id].ready;
    }
  }

  lemma LeaseMoves(v: B.View, id: Id, j: Job, k: Id)
    requires id in v && B.HasRoom(v[id]) && k in v && v[k].inFlight <= v[k].maxFlight
    ensures QueueMoved(v[k], B.LeaseView(v, id, j)[k], if k == id then 1 else 0)
  {
  }

  lemma LeaseKeys(v: B.View, id: Id, j: Job)
    requires id in v
    ensures B.LeaseView(v, id, j).Keys == v.Keys
  {
  }

  lemma LeaseMovesSlots(st: Sys, w: nat, j: Job, id: Id)
    requires w < |st.workers| && st.workers[w].Idle? && id in st.broker && QueueOk(st, id)
    requires j.storeId in st.broker && B.HasRoom(st.broker[j.storeId])
    ensures id in B.LeaseView(st.broker, j.storeId, j)
    ensures QueueMoved(st.broker[id], B.LeaseView(st.broker, j.storeId, j)[id],
                       One(OnStore(id), Leased(j)) - One(OnStore(id), st.workers[w]))
  {
    hide B.LeaseView, QueueMoved;
    LeaseKeys(st.broker, j.storeId, j);
    LeaseMoves(st.broker, j.storeId, j, id);
  }

  lemma LeaseKept(st: Sys, w: nat, j: Job)
    requires Accounted(st) && w < |st.workers| && st.workers[w].Idle?
    requires j.storeId in st.broker && B.HasRoom(st.broker[j.storeId])
    ensures Accounted(At(st.(broker := B.LeaseView(st.broker, j.storeId, j)), w, Leased(j)))
  {
    hide B.LeaseView, QueueMoved, QueueOk;
    var t := At(st.(broker := B.LeaseView(st.broker, j.storeId, j)), w, Leased(j));
    LeaseKeys(st.broker, j.storeId, j);
    forall id | id in st.broker
      ensures QueueMoved(st.broker[id], t.broker[id], One(OnStore(id), t.workers[w]) - One(OnStore(id), st.workers[w]))
    {
      LeaseMovesSlots(st, w, j, id);
    }
    SlotMoves(st, t, w);
  }

  /** Release's guard never fails: its store is there and has a slot to give back. */
  lemma ReleaseGuardHolds(c: Config, st: Sys, w: nat)
    requires Accounted(st) && w < |st.workers| && st.workers[w].Finished?
    ensures st.workers[w].store in st.broker && st.broker[st.workers[w].store].inFlight > 0
  {
    var id := st.workers[w].store;
    assert st.workers[w].Slot() == Some(id);
    assert QueueOk(st, id);
    CountPositive(st.workers, OnStore(id));
    assert Selects(OnStore(id), st.workers[w]);
  }

  lemma ReleaseKept(c: Config, st: Sys, w: nat)
    requires Accounted(st) && w < |st.workers| && st.workers[w].Finished?
    ensures Accounted(At(st.(broker := B.ReleaseView(st.broker, st.workers[w].store)), w, Idle))
  {
    ReleaseGuardHolds(c, st, w);
    var t := At(st.(broker := B.ReleaseView(st.broker, st.workers[w].store)), w, Idle);
    forall id | id in st.broker
      ensures QueueMoved(st.broker[id], t.broker[id], One(OnStore(id), t.workers[w]) - One(OnStore(id), st.workers[w]))
    {
      assert QueueOk(st, id);
    }
    SlotMoves(st, t, w);
  }

  /** The job a step enqueues, if any. */
  ghost function Requeues(c: Config, p: Phase, s: WorkerStep): Option<Job>
    requires s.Requeue? ==> p.Deferred?
    requires s.Retry? ==> p.Settling?
  {
    match s
    case Requeue(at) => Some(Postponed(p.job, at, p.wait))
    case Retry(at, u) => Some(Retried(c, p.job, at, u))
    case _ => None
  }

  ghost predicate SameSlotsAndStores(st: Sys, t: Sys) {
    && t.stores == st.stores && |t.workers| == |st.workers|
    && (forall v :: 0 <= v < |st.workers| ==> t.workers[v].Slot() == st.workers[v].Slot())
  }

  /** Apart from Lease and Release, a worker's step keeps its slot, ... */
  lemma WorkSlots(c: Config, st: Sys, w: nat, s: WorkerStep)
    requires w < |st.workers| && WorkerEnabled(c, st, st.workers[w], s) && !s.Lease? && !s.Release?
    ensures SameSlotsAndStores(st, ApplyWork(c, st, w, s))
  {
    hide ApplyWork, SameSlotsAndStores;
    if s.Allow? || s.Take? || s.Tell? {
      GateSlots(c, st, w, s);
    } else {
      OtherSlots(c, st, w, s);
    }
  }

  lemma GateSlots(c: Config, st: Sys, w: nat, s: WorkerStep)
    requires w < |st.workers| && WorkerEnabled(c, st, st.workers[w], s) && (s.Allow? || s.Take? || s.Tell?)
    ensures SameSlotsAndStores(st, ApplyWork(c, st, w, s))
  {
    hide C.AllowOf, C.FailureOf, R.TakeOf, Ensured;
  }

  lemma OtherSlots(c: Config, st: Sys, w: nat, s: WorkerStep)
    requires w < |st.workers| && WorkerEnabled(c, st, st.workers[w], s) && !s.Lease? && !s.Release?
    requires !s.Allow? && !s.Take? && !s.Tell?
    ensures SameSlotsAndStores(st, ApplyWork(c, st, w, s))
  {
    hide Enqueued, LastN, L.DeadIds, P.Delay;
  }

  /** ... and touches the broker only to put its own job back. */
  lemma WorkBroker(c: Config, st: Sys, w: nat, s: WorkerStep)
    requires w < |st.workers| && WorkerEnabled(c, st, st.workers[w], s) && !s.Lease? && !s.Release?
    ensures var t, r := ApplyWork(c, st, w, s), Requeues(c, st.workers[w], s);
      && (r.Some? ==> r.value.storeId in st.stores)
      && t.broker == if r.Some? then Enqueued(st, r.value) else st.broker
  {
  }

  lemma AccountsStores(c: Config, st: Sys, w: nat, s: WorkerStep)
    requires w < |st.workers| && WorkerEnabled(c, st, st.workers[w], s)
    ensures ApplyWork(c, st, w, s).stores == st.stores
  {
    if !s.Lease? && !s.Release? {
      WorkSlots(c, st, w, s);
    }
  }

  lemma AccountsWork(c: Config, st: Sys, w: nat, s: WorkerStep)
    requires Accounted(st) && w < |st.workers| && WorkerEnabled(c, st, st.workers[w], s)
    ensures Accounted(ApplyWork(c, st, w, s))
  {
    if s.Lease? {
      LeaseKept(st, w, s.job);
    } else if s.Release? {
      ReleaseKept(c, st, w);
    } else {
      var t, r := ApplyWork(c, st, w, s), Requeues(c, st.workers[w], s);
      WorkSlots(c, st, w, s);
      WorkBroker(c, st, w, s);
      if r.Some? {
        EnqueueKept(st, r.value);
        Reslotted(st.(broker := Enqueued(st, r.value)), t);
      } else {
        Reslotted(st, t);
      }
    }
  }

  /** Accounted reads the stores, the broker and the slots, nothing else. */
  lemma Reslotted(st: Sys, t: Sys)
    requires Accounted(st) && t.stores == st.stores && t.broker == st.broker && |t.workers| == |st.workers|
    requires forall w :: 0 <= w < |st.workers| ==> t.workers[w].Slot() == st.workers[w].Slot()
    ensures Accounted(t)
  {
    forall id | id in t.broker
      ensures QueueOk(t, id)
    {
      assert QueueOk(st, id);
      SameSlots(st.workers, t.workers, id);
    }
  }

  lemma OpenQueueKept(st: Sys, id: Id)
    requires Accounted(st) && id in st.stores
    ensures Accounted(st.(broker := B.EnsureView(st.broker, id, st.stores[id].ordered, st.stores[id].maxInFlight)))
  {
    var t := st.(broker := B.EnsureView(st.broker, id, st.stores[id].ordered, st.stores[id].maxInFlight));
    forall k | k in t.broker
      ensures QueueOk(t, k)
    {
      if k in st.broker {
        assert QueueOk(st, k);
      } else {
        NoneBusy(st.workers, k);
      }
    }
  }

  /** A store is added, or an old one keeps its limits. */
  lemma StoresKept(st: Sys, t: Sys, d: Store)
    requires Accounted(st) && Normalized(d) && t == st.(stores := st.stores[d.id := d])
    requires d.id in st.stores ==> d.ordered == st.stores[d.id].ordered && d.maxInFlight == st.stores[d.id].maxInFlight
    ensures Accounted(t)
  {
    forall k | k in t.broker
      ensures QueueOk(t, k)
    {
      assert QueueOk(st, k);
    }
  }

  /** The job an ingest or a replay puts into the broker. */
  ghost function MintedJob(c: Config, st: Sys, l: Label): Job
    requires Enabled(c, st, l) && (l.RelayFrame? || l.ReplayDead? || l.ReplayJournal?)
  {
    match l
    case RelayFrame(f, s, r, at) => Job(f, r, s, st.hist.accepted[f].typ, st.hist.accepted[f].body, 0, at, at, None)
    case ReplayDead(of, r, at) => JobFromDead(st.dead[L.LastAt(st.dead, of).value], r, at).value
    case ReplayJournal(of, r, at) => JobFromEntry(L.LastEntry(st.journal, of).value, r, at).value
  }

  /** The relay id a step mints, if any. */
  function Mints(l: Label): Option<Id> {
    if l.RelayFrame? || l.ReplayDead? || l.ReplayJournal? then Some(l.relay) else None
  }

  lemma AccountsMint(c: Config, st: Sys, l: Label)
    requires Accounted(st) && Enabled(c, st, l) && (l.RelayFrame? || l.ReplayDead? || l.ReplayJournal?)
    ensures Accounted(Apply(c, st, l))
  {
    hide Accounted, Enqueued;
    var t := Apply(c, st, l);
    EnqueueKept(st, MintedJob(c, st, l));
    Reslotted(st.(broker := t.broker), t);
  }

  /** Steps that leave stores, broker and workers alone. */
  lemma AccountsRest(c: Config, st: Sys, l: Label)
    requires Accounted(st) && Enabled(c, st, l)
    requires l.AdvanceTo? || l.OpenGates? || l.Observe? || l.AcceptFrame? || l.RemoveDead?
    ensures Accounted(Apply(c, st, l))
  {
    hide Accounted, Ensured, C.Settle, PlanOf, L.FirstAt, L.Without;
    Reslotted(st, Apply(c, st, l));
  }

  lemma AccountsStep(c: Config, st: Sys, l: Label)
    requires Accounted(st) && Enabled(c, st, l)
    ensures Accounted(Apply(c, st, l))
  {
    hide Accounted, ApplyWork, Normalized;
    if l.Work? {
      AccountsWork(c, st, l.w, l.step);
    } else if l.CreateStore? {
      StoresKept(st, Apply(c, st, l), l.d);
    } else if l.SetEnabled? {
      AccountsSwitch(st, l.id, l.enabled);
    } else if l.OpenQueue? {
      OpenQueueKept(st, l.id);
    } else if l.RelayFrame? || l.ReplayDead? || l.ReplayJournal? {
      AccountsMint(c, st, l);
    } else {
      AccountsRest(c, st, l);
    }
  }

  lemma AccountsSwitch(st: Sys, id: Id, e: bool)
    requires Accounted(st) && id in st.stores
    ensures Accounted(st.(stores := st.stores[id := st.stores[id].(enabled := e)]))
  {
    StoresKept(st, st.(stores := st.stores[id := st.stores[id].(enabled := e)]), st.stores[id].(enabled := e));
  }

  // ---------- Over every run ----------

  lemma {:induction false} AccountsHold(c: Config, states: seq<Sys>, labels: seq<Label>, i: nat)
    requires IsRun(c, states, labels) && Initial(states[0]) && i <= |labels|
    ensures Accounted(states[i])
  {
    if i > 0 {
      AccountsHold(c, states, labels, i - 1);
      assert Steps(c, states[i - 1], labels[i - 1], states[i]);
      AccountsStep(c, states[i - 1], labels[i - 1]);
    } else {
      AccountedInitially(states[0]);
    }
  }

  /** In every reachable state a store's in-flight counter is the number of workers between Lease
      and Release on it, within its limit, which is one for an ordered store. */
  lemma LeaseAccounting(c: Config, states: seq<Sys>, labels: seq<Label>, i: nat, id: Id)
    requires IsRun(c, states, labels) && Initial(states[0]) && i <= |labels| && id in states[i].broker
    ensures var q := states[i].broker[id];
      && q.inFlight == Count(states[i].workers, OnStore(id)) <= q.maxFlight
      && (q.ordered ==> Count(states[i].workers, OnStore(id)) <= 1)
  {
    AccountsHold(c, states, labels, i);
    assert QueueOk(states[i], id);
  }

  lemma {:induction false} AnySplits(ws: seq<Phase>, ids: set<Id>, id: Id)
    requires id in ids
    ensures Count(ws, OnAny(ids)) == Count(ws, OnAny(ids - {id})) + Count(ws, OnStore(id))
  {
    if ws != [] {
      AnySplits(ws[..|ws| - 1], ids, id);
    }
  }

  lemma {:induction false} NoneOfNone(ws: seq<Phase>)
    ensures Count(ws, OnAny({})) == 0
  {
    CountPositive(ws, OnAny({}));
  }

  lemma {:induction false} DepthSum(st: Sys, ids: set<Id>)
    requires ids <= st.broker.Keys && forall id :: id in ids ==>
      st.broker[id].inFlight == Count(st.workers, OnStore(id))
    ensures B.DepthIn(st.broker, ids) == |B.ReadyIn(st.broker, ids)| + Count(st.workers, OnAny(ids))
    decreases ids
  {
    if ids == {} {
      NoneOfNone(st.workers);
    } else {
      var id :| id in ids;
      B.DepthSplit(st.broker, ids, id);
      B.ReadySplit(st.broker, ids, id);
      AnySplits(st.workers, ids, id);
      DepthSum(st, ids - {id});
    }
  }

  lemma {:induction false} BusySplits(ws: seq<Phase>, ids: set<Id>)
    requires forall w :: 0 <= w < |ws| && ws[w].Slot().Some? ==> ws[w].Slot().value in ids
    ensures Count(ws, OnAny(ids)) == Count(ws, Holding) + Count(ws, LetGo)
  {
    if ws != [] {
      var v := ws[..|ws| - 1];
      assert forall w :: 0 <= w < |v| ==> v[w] == ws[w];
      BusySplits(v, ids);
    }
  }

  /** Depth is the number of live jobs, waiting or in a worker's hands, plus the workers that have
      let go of their job and not released its slot yet: those are counted twice, or too late. */
  lemma DepthIsLiveJobsPlusUnreleased(c: Config, states: seq<Sys>, labels: seq<Label>, i: nat)
    requires IsRun(c, states, labels) && Initial(states[0]) && i <= |labels|
    ensures var st := states[i];
      B.DepthOf(st.broker) ==
        |B.ReadyIn(st.broker, st.broker.Keys)| + Count(st.workers, Holding) + Count(st.workers, LetGo)
  {
    var st := states[i];
    AccountsHold(c, states, labels, i);
    forall id | id in st.broker
      ensures st.broker[id].inFlight == Count(st.workers, OnStore(id))
    {
      assert QueueOk(st, id);
    }
    DepthSum(st, st.broker.Keys);
    BusySplits(st.workers, st.broker.Keys);
  }
}
