/** Routing over whole runs: every relay is for a store that takes its frame's type, and every store
    planned for a frame gets exactly one relay at ingest. */
module Routes {
  import opened Common
  import opened Jobs
  import opened Routing
  import opened Delivery
  import C = Breakers
  import R = Buckets
  import A = Accounts
  import K = Ledger
  import V = Lineage

  /** r was minted at ingest, for frame f and store s. */
  ghost predicate IngestOf(h: History, r: Id, f: Id, s: Id) {
    r in h.births && h.births[r].frameId == f && h.births[r].storeId == s && h.births[r].parent == None
  }

  ghost predicate Served(h: History, f: Id, s: Id) {
    exists r :: IngestOf(h, r, f, s)
  }

  /** A registered store has a prefix of the frame's type. */
  ghost predicate RouteOk(h: History, stores: map<Id, Store>, f: Id, s: Id) {
    f in h.accepted && ValidType(Trim(h.accepted[f].typ)) && s in stores && stores[s].Takes(h.accepted[f].typ)
  }

  ghost predicate PlansOk(st: Sys) {
    forall f, s :: f in st.plans && s in st.plans[f] ==> RouteOk(st.hist, st.stores, f, s) && !Served(st.hist, f, s)
  }

  ghost predicate BirthsOk(h: History, stores: map<Id, Store>) {
    forall r :: r in h.births ==> RouteOk(h, stores, h.births[r].frameId, h.births[r].storeId)
  }

  ghost predicate OnceEach(h: History) {
    forall r, q, f, s :: IngestOf(h, r, f, s) && IngestOf(h, q, f, s) ==> r == q
  }

  ghost predicate Routed(st: Sys) {
    && (forall f :: f in st.hist.accepted ==> ValidType(Trim(st.hist.accepted[f].typ)))
    && PlansOk(st) && BirthsOk(st.hist, st.stores) && OnceEach(st.hist)
  }

  // ---------- Every step ----------

  lemma WorkKeepsPlans(c: Config, st: Sys, w: nat, s: WorkerStep)
    requires w < |st.workers| && WorkerEnabled(c, st, st.workers[w], s)
    ensures ApplyWork(c, st, w, s).plans == st.plans
  {
    hide C.AllowOf, R.TakeOf, Enqueued;
  }

  /** Routed reads nothing else. */
  lemma SameRoutes(st: Sys, t: Sys)
    requires Routed(st) && t.plans == st.plans && t.hist.births == st.hist.births && t.hist.accepted == st.hist.accepted
    requires forall id :: id in st.stores ==> id in t.stores && t.stores[id].typePrefixes == st.stores[id].typePrefixes
    ensures Routed(t)
  {
    hide Trim, ValidType;
    forall f, s
      ensures RouteOk(st.hist, st.stores, f, s) ==> RouteOk(t.hist, t.stores, f, s)
    {
    }
    forall r, f, s
      ensures IngestOf(st.hist, r, f, s) <==> IngestOf(t.hist, r, f, s)
    {
    }
  }

  lemma AcceptRouted(c: Config, st: Sys, f: Id, p: Payload)
    requires Routed(st) && Enabled(c, st, AcceptFrame(f, p))
    ensures Routed(Apply(c, st, AcceptFrame(f, p)))
  {
    hide Trim, ValidType, Store.Takes;
    var t := Apply(c, st, AcceptFrame(f, p));
    forall g, s
      ensures RouteOk(st.hist, st.stores, g, s) ==> g != f && RouteOk(t.hist, t.stores, g, s)
    {
    }
    forall r, g, s
      ensures IngestOf(st.hist, r, g, s) <==> IngestOf(t.hist, r, g, s)
      ensures IngestOf(st.hist, r, g, s) ==> g != f
    {
    }
  }

  /** A minted relay of a routed frame keeps the births routed. */
  lemma MintRouted(st: Sys, j: Job)
    requires BirthsOk(st.hist, st.stores) && j.storeId in st.stores && j.relayId !in st.hist.births
    requires RouteOk(st.hist, st.stores, j.frameId, j.storeId)
    ensures var h := Minted(st, j).hist;
      && h.accepted == st.hist.accepted && BirthsOk(h, st.stores)
      && (forall r, f, s :: IngestOf(h, r, f, s) <==>
            IngestOf(st.hist, r, f, s) || (r == j.relayId && f == j.frameId && s == j.storeId && j.replayOf == None))
  {
    hide Trim, ValidType, Store.Takes;
    var h := Minted(st, j).hist;
    forall f, s
      ensures RouteOk(h, st.stores, f, s) <==> RouteOk(st.hist, st.stores, f, s)
    {
    }
  }

  lemma RelayRouted(c: Config, st: Sys, l: Label)
    requires Routed(st) && Enabled(c, st, l) && l.RelayFrame?
    ensures Routed(Apply(c, st, l))
  {
    hide Trim, ValidType, Store.Takes;
    var t, j := Apply(c, st, l), A.MintedJob(c, st, l);
    assert RouteOk(st.hist, st.stores, l.frame, l.store) && !Served(st.hist, l.frame, l.store);
    MintRouted(st, j);
    forall f, s | f in t.plans && s in t.plans[f]
      ensures RouteOk(t.hist, t.stores, f, s) && !Served(t.hist, f, s)
    {
      assert RouteOk(st.hist, st.stores, f, s) && !Served(st.hist, f, s);
    }
  }

  lemma ReplayRouted(c: Config, st: Sys, l: Label)
    requires Routed(st) && V.Traced(st) && Enabled(c, st, l) && (l.ReplayDead? || l.ReplayJournal?)
    ensures Routed(Apply(c, st, l))
  {
    hide Trim, ValidType, Store.Takes, V.Traced;
    var t, j := Apply(c, st, l), A.MintedJob(c, st, l);
    V.MintedJobOk(c, st, l);
    ReplayHasParent(c, st, l);
    MintRouted(st, j);
    forall f, s | f in t.plans && s in t.plans[f]
      ensures RouteOk(t.hist, t.stores, f, s) && !Served(t.hist, f, s)
    {
      assert RouteOk(st.hist, st.stores, f, s) && !Served(st.hist, f, s);
    }
  }

  lemma ReplayHasParent(c: Config, st: Sys, l: Label)
    requires Enabled(c, st, l) && (l.ReplayDead? || l.ReplayJournal?)
    ensures A.MintedJob(c, st, l).replayOf.Some?
  {
  }

  lemma RoutedStep(c: Config, st: Sys, l: Label)
    requires Routed(st) && V.Traced(st) && Enabled(c, st, l)
    ensures Routed(Apply(c, st, l))
  {
    hide Routed, V.Traced, ApplyWork, Trim, ValidType, Ensured, PlanOf, C.Settle;
    if l.Work? {
      WorkKeepsPlans(c, st, l.w, l.step);
      K.WorkMintsNothing(c, st, l.w, l.step);
      A.AccountsStores(c, st, l.w, l.step);
      SameRoutes(st, Apply(c, st, l));
    } else if l.AcceptFrame? {
      AcceptRouted(c, st, l.frame, l.payload);
    } else if l.RelayFrame? {
      RelayRouted(c, st, l);
    } else if l.ReplayDead? || l.ReplayJournal? {
      ReplayRouted(c, st, l);
    } else {
      RestRouted(c, st, l);
    }
  }

  lemma RestRouted(c: Config, st: Sys, l: Label)
    requires Routed(st) && Enabled(c, st, l) && !l.Work? && !l.AcceptFrame?
    requires !l.RelayFrame? && !l.ReplayDead? && !l.ReplayJournal?
    ensures Routed(Apply(c, st, l))
  {
    hide Routed, B.EnsureView, C.Settle, Ensured, L.FirstAt, L.Without, L.LastAt;
    SameRoutes(st, Apply(c, st, l));
  }

  lemma {:induction false} RoutedHolds(c: Config, states: seq<Sys>, labels: seq<Label>, i: nat)
    requires IsRun(c, states, labels) && Initial(states[0]) && i <= |labels|
    ensures Routed(states[i])
  {
    hide Enabled, Apply, V.Traced;
    if i > 0 {
      RoutedHolds(c, states, labels, i - 1);
      V.TracedHolds(c, states, labels, i - 1);
      assert Steps(c, states[i - 1], labels[i - 1], states[i]);
      RoutedStep(c, states[i - 1], labels[i - 1]);
    }
  }

  // ---------- What follows ----------

  /** In every reachable state every relay, replayed or not, is for a registered store one of whose
      prefixes its frame's type has, and that type is a valid one. */
  lemma RelaysAreRouted(c: Config, states: seq<Sys>, labels: seq<Label>, i: nat, r: Id)
    requires IsRun(c, states, labels) && Initial(states[0]) && i <= |labels| && r in states[i].hist.births
    ensures var h, b := states[i].hist, states[i].hist.births[r];
      && b.frameId in h.accepted && ValidType(Trim(h.accepted[b.frameId].typ))
      && b.storeId in states[i].stores && states[i].stores[b.storeId].Takes(h.accepted[b.frameId].typ)
  {
    RoutedHolds(c, states, labels, i);
  }

  /** In t frame f has a plan still, and the same stores are in it or served as in st. */
  ghost predicate SameDue(st: Sys, t: Sys, f: Id, s: Id)
    requires f in st.plans
  {
    && f in t.plans && f in t.hist.accepted
    && (s in t.plans[f] || Served(t.hist, f, s) <==> s in st.plans[f] || Served(st.hist, f, s))
  }

  lemma ServedStep(c: Config, st: Sys, l: Label, f: Id, s: Id)
    requires Routed(st) && V.Traced(st) && Enabled(c, st, l) && f in st.plans && f in st.hist.accepted
    ensures SameDue(st, Apply(c, st, l), f, s)
  {
    hide V.Traced, Routed, Apply, Served;
    if l.RelayFrame? || l.ReplayDead? || l.ReplayJournal? {
      ServedMint(c, st, l, f, s);
    } else {
      PlanKept(c, st, l, f);
      SameServed(st.hist, Apply(c, st, l).hist, f, s);
    }
  }

  lemma PlanKept(c: Config, st: Sys, l: Label, f: Id)
    requires Enabled(c, st, l) && f in st.plans && f in st.hist.accepted
    requires !l.RelayFrame? && !l.ReplayDead? && !l.ReplayJournal?
    ensures var t := Apply(c, st, l);
      f in t.plans && f in t.hist.accepted && t.plans[f] == st.plans[f] && t.hist.births == st.hist.births
  {
    hide ApplyWork, PlanOf, Ensured, C.Settle, Trim, ValidType;
    if l.Work? {
      WorkKeepsPlans(c, st, l.w, l.step);
      K.WorkMintsNothing(c, st, l.w, l.step);
    }
  }

  lemma SameServed(h: History, k: History, f: Id, s: Id)
    requires h.births == k.births
    ensures Served(h, f, s) <==> Served(k, f, s)
  {
    forall r
      ensures IngestOf(h, r, f, s) <==> IngestOf(k, r, f, s)
    {
    }
  }

  lemma ServedMint(c: Config, st: Sys, l: Label, f: Id, s: Id)
    requires Routed(st) && V.Traced(st) && Enabled(c, st, l) && f in st.plans && f in st.hist.accepted
    requires l.RelayFrame? || l.ReplayDead? || l.ReplayJournal?
    ensures SameDue(st, Apply(c, st, l), f, s)
  {
    hide Apply, V.Traced, Routed, SameDue;
    if l.RelayFrame? {
      ServedRelay(c, st, l, f, s);
    } else {
      ServedReplay(c, st, l, f, s);
    }
  }

  lemma ServedRelay(c: Config, st: Sys, l: Label, f: Id, s: Id)
    requires Routed(st) && Enabled(c, st, l) && f in st.plans && f in st.hist.accepted && l.RelayFrame?
    ensures SameDue(st, Apply(c, st, l), f, s)
  {
    hide Trim, ValidType, Store.Takes, Enqueued;
    var t := Apply(c, st, l);
    assert RouteOk(st.hist, st.stores, l.frame, l.store);
    MintRouted(st, A.MintedJob(c, st, l));
    if Served(st.hist, f, s) {
      var r :| IngestOf(st.hist, r, f, s);
      assert IngestOf(t.hist, r, f, s);
    }
    if l.frame == f && l.store == s {
      assert IngestOf(t.hist, l.relay, f, s);
    }
  }

  lemma ServedReplay(c: Config, st: Sys, l: Label, f: Id, s: Id)
    requires Routed(st) && V.Traced(st) && Enabled(c, st, l) && f in st.plans && f in st.hist.accepted
    requires l.ReplayDead? || l.ReplayJournal?
    ensures SameDue(st, Apply(c, st, l), f, s)
  {
    hide V.Traced, Trim, ValidType, Store.Takes, Enqueued;
    var t := Apply(c, st, l);
    V.MintedJobOk(c, st, l);
    ReplayHasParent(c, st, l);
    MintRouted(st, A.MintedJob(c, st, l));
    if Served(st.hist, f, s) {
      var r :| IngestOf(st.hist, r, f, s);
      assert IngestOf(t.hist, r, f, s);
    }
  }

  /** Nothing planned is lost and nothing is added: at any time after a frame has got its plan, the
      stores that matched then are those still waiting for their relay and those that have got it. */
  lemma {:induction false} PlanIsServed(c: Config, states: seq<Sys>, labels: seq<Label>, k: nat, i: nat, s: Id)
    requires IsRun(c, states, labels) && Initial(states[0]) && k < i <= |labels| && labels[k].AcceptFrame?
    ensures var f, t := labels[k].frame, states[i];
      && f in t.plans && f in t.hist.accepted
      && (s in PlanOf(states[k].stores, labels[k].payload.typ) <==> s in t.plans[f] || Served(t.hist, f, s))
      && !(s in t.plans[f] && Served(t.hist, f, s))
    decreases i
  {
    hide Enabled, Apply, V.Traced, PlanOf, Served, RouteOk;
    var f := labels[k].frame;
    assert Steps(c, states[i - 1], labels[i - 1], states[i]);
    RoutedHolds(c, states, labels, i);
    RoutedHolds(c, states, labels, i - 1);
    V.TracedHolds(c, states, labels, i - 1);
    if k == i - 1 {
      NothingServed(c, states[k], f, labels[k].payload, s);
    } else {
      PlanIsServed(c, states, labels, k, i - 1, s);
      ServedStep(c, states[i - 1], labels[i - 1], f, s);
    }
  }

  lemma NothingServed(c: Config, st: Sys, f: Id, p: Payload, s: Id)
    requires Routed(st) && Enabled(c, st, AcceptFrame(f, p))
    ensures var t := Apply(c, st, AcceptFrame(f, p));
      f in t.plans && t.plans[f] == PlanOf(st.stores, p.typ) && f in t.hist.accepted && !Served(t.hist, f, s)
  {
    hide Trim, ValidType, Store.Takes;
    var t := Apply(c, st, AcceptFrame(f, p));
    forall r | r in t.hist.births
      ensures t.hist.births[r].frameId != f
    {
      assert RouteOk(st.hist, st.stores, st.hist.births[r].frameId, st.hist.births[r].storeId);
    }
  }

  /** No frame has two ingest relays for one store. */
  lemma OneRelayPerStore(c: Config, states: seq<Sys>, labels: seq<Label>, i: nat, r: Id, q: Id)
    requires IsRun(c, states, labels) && Initial(states[0]) && i <= |labels|
    requires r in states[i].hist.births && q in states[i].hist.births
    requires states[i].hist.births[r].parent == None == states[i].hist.births[q].parent
    requires states[i].hist.births[r].frameId == states[i].hist.births[q].frameId
    requires states[i].hist.births[r].storeId == states[i].hist.births[q].storeId
    ensures r == q
  {
    RoutedHolds(c, states, labels, i);
    var h := states[i].hist;
    var b := h.births[r];
    assert IngestOf(h, r, b.frameId, b.storeId) && IngestOf(h, q, b.frameId, b.storeId);
  }

  // ---------- Stores that take no type ----------

  /** A step that makes a store's breaker has a worker with a job of the store in its hands. */
  lemma GateMaker(c: Config, st: Sys, l: Label, id: Id) returns (w: nat)
    requires Enabled(c, st, l) && id !in st.gates.breakers && id in Apply(c, st, l).gates.breakers
    ensures w < |st.workers| && st.workers[w].Checked? && st.workers[w].job.storeId == id
  {
    hide R.TakeOf, C.AllowOf, Enqueued;
    w := l.w;
    if l.Work? && !l.step.Allow? {
      OldGates(c, st, l.w, l.step);
    }
  }

  lemma OldGates(c: Config, st: Sys, w: nat, s: WorkerStep)
    requires w < |st.workers| && WorkerEnabled(c, st, st.workers[w], s) && !s.Allow?
    ensures ApplyWork(c, st, w, s).gates.breakers.Keys == st.gates.breakers.Keys
  {
    hide R.TakeOf, Enqueued;
  }

  /** A job in a worker's hands is of a store that takes some type. */
  lemma HeldIsRouted(st: Sys, w: nat)
    requires Routed(st) && V.Traced(st) && w < |st.workers| && st.workers[w].Checked?
    ensures var id := st.workers[w].job.storeId; id in st.stores && TakesSome(st.stores[id])
  {
    hide Trim, ValidType, Store.Takes;
    assert V.Faithful(st.hist, V.JobTag(st.workers[w].job));
    var b := st.hist.births[st.workers[w].job.relayId];
    assert RouteOk(st.hist, st.stores, b.frameId, b.storeId);
  }

  /** A registered store keeps its prefixes. */
  lemma PrefixesStay(c: Config, st: Sys, l: Label, id: Id)
    requires Enabled(c, st, l) && id in st.stores
    ensures id in Apply(c, st, l).stores && Apply(c, st, l).stores[id].typePrefixes == st.stores[id].typePrefixes
  {
    hide ApplyWork;
    if l.Work? {
      A.AccountsStores(c, st, l.w, l.step);
    }
  }

  /** Nobody ever makes the gates of a store that takes no type. */
  lemma {:induction false} NoTypeNoGates(c: Config, states: seq<Sys>, labels: seq<Label>, i: nat, id: Id)
    requires IsRun(c, states, labels) && Initial(states[0]) && i <= |labels|
    ensures id in states[i].gates.breakers ==> id in states[i].stores && TakesSome(states[i].stores[id])
  {
    hide Enabled, Apply, V.Traced, Routed, TakesSome;
    if i > 0 {
      var st, l := states[i - 1], labels[i - 1];
      NoTypeNoGates(c, states, labels, i - 1, id);
      assert Steps(c, st, l, states[i]);
      if id in states[i].gates.breakers {
        if id !in st.gates.breakers {
          RoutedHolds(c, states, labels, i - 1);
          V.TracedHolds(c, states, labels, i - 1);
          var w := GateMaker(c, st, l, id);
          HeldIsRouted(st, w);
        }
        PrefixesStay(c, st, l, id);
        SamePrefixes(st.stores[id], states[i].stores[id]);
      }
    }
  }

  lemma SamePrefixes(d: Store, e: Store)
    requires d.typePrefixes == e.typePrefixes
    ensures TakesSome(d) <==> TakesSome(e)
  {
    forall t
      ensures d.Takes(t) <==> e.Takes(t)
    {
    }
  }
}
