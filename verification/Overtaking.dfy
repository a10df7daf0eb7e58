/** Bounded overtaking: how long a due job can wait while its store has room. */
module Overtaking {
  import opened Common
  import opened Jobs
  import opened Routing
  import opened Delivery
  import B = Brokers
  import C = Breakers
  import R = Buckets
  import P = Backoff
  import A = Accounts
  import N = JobCounts
  import T = Attempts
  import V = Lineage

  /** The job a step puts into the broker, if any. */
  ghost function Enqueues(c: Config, st: Sys, l: Label): Option<Job>
    requires Enabled(c, st, l)
  {
    match l
    case Work(w, s) => A.Requeues(c, st.workers[w], s)
    case RelayFrame(_, _, _, _) => Some(A.MintedJob(c, st, l))
    case ReplayDead(_, _, _) => Some(A.MintedJob(c, st, l))
    case ReplayJournal(_, _, _) => Some(A.MintedJob(c, st, l))
    case _ => None
  }

  predicate IsLease(l: Label) {
    l.Work? && l.step.Lease?
  }

  ghost predicate BrokerMoves(c: Config, st: Sys, l: Label, broker: B.View)
    requires Enabled(c, st, l)
  {
    var e := Enqueues(c, st, l);
    if IsLease(l) then broker == B.LeaseView(st.broker, l.step.job.storeId, l.step.job)
    else if l.Work? && l.step.Release? then broker == B.ReleaseView(st.broker, st.workers[l.w].store)
    else if l.OpenQueue? then
      broker == B.EnsureView(st.broker, l.id, st.stores[l.id].ordered, st.stores[l.id].maxInFlight)
    else if e.Some? then e.value.storeId in st.stores && broker == Enqueued(st, e.value)
    else broker == st.broker
  }

  /** What any step does to the broker. */
  lemma BrokerChange(c: Config, st: Sys, l: Label)
    requires Enabled(c, st, l)
    ensures BrokerMoves(c, st, l, Apply(c, st, l).broker)
  {
    if l.Work? {
      WorkerChange(c, st, l.w, l.step);
    } else {
      OtherChange(c, st, l);
    }
  }

  lemma WorkerChange(c: Config, st: Sys, w: nat, s: WorkerStep)
    requires Enabled(c, st, Work(w, s))
    ensures BrokerMoves(c, st, Work(w, s), ApplyWork(c, st, w, s).broker)
  {
    if s.Lease? || s.Release? {
    } else {
      A.WorkBroker(c, st, w, s);
    }
  }

  predicate IsMint(l: Label) {
    l.RelayFrame? || l.ReplayDead? || l.ReplayJournal?
  }

  lemma MintChange(c: Config, st: Sys, l: Label)
    requires Enabled(c, st, l) && IsMint(l)
    ensures BrokerMoves(c, st, l, Apply(c, st, l).broker)
  {
    hide ApplyWork, Enqueued, B.EnsureView, C.Settle, Ensured, PlanOf;
  }

  lemma OtherChange(c: Config, st: Sys, l: Label)
    requires Enabled(c, st, l) && !l.Work?
    ensures BrokerMoves(c, st, l, Apply(c, st, l).broker)
  {
    hide ApplyWork, Enqueued, B.EnsureView, C.Settle, Ensured, PlanOf, Minted, A.MintedJob;
    if IsMint(l) {
      MintChange(c, st, l);
    }
  }

  /** The clock reading a step stamps the job it enqueues with, if it enqueues one. */
  predicate FreshRead(l: Label, a: Time) {
    match l
    case Work(_, Requeue(at)) => at > a
    case Work(_, Retry(at, _)) => at > a
    case RelayFrame(_, _, _, at) => at > a
    case ReplayDead(_, _, at) => at > a
    case ReplayJournal(_, _, at) => at > a
    case _ => true
  }

  ghost predicate WaitsPositive(st: Sys) {
    forall w :: 0 <= w < |st.workers| && st.workers[w].Deferred? ==> st.workers[w].wait > 0
  }

  /** Once the clock is read past a, nothing new becomes due by a. */
  lemma EnqueuedLater(c: Config, st: Sys, l: Label, a: Time)
    requires Enabled(c, st, l) && FreshRead(l, a) && WaitsPositive(st)
    ensures Enqueues(c, st, l).Some? ==> Enqueues(c, st, l).value.notBefore > a
  {
    if l.Work? && l.step.Retry? {
      P.DelayBounds(c.policy, st.workers[l.w].job.attempt, l.step.u);
    }
  }

  /** How many jobs waiting anywhere are due by a. */
  ghost function Ahead(st: Sys, a: Time): nat {
    N.Waiting(st.broker, N.DueBy(a))
  }

  /** The step enqueues a job that is due by a. */
  ghost predicate Late(c: Config, st: Sys, l: Label, a: Time) {
    Enabled(c, st, l) && Enqueues(c, st, l).Some? && Enqueues(c, st, l).value.notBefore <= a
  }

  /** Such jobs come by a late enqueue, and leave by a Lease of one of them. */
  lemma AheadChanges(c: Config, st: Sys, l: Label, a: Time)
    requires Enabled(c, st, l)
    ensures Ahead(Apply(c, st, l), a) + (if IsLease(l) && l.step.job.notBefore <= a then 1 else 0)
         == Ahead(st, a) + (if Late(c, st, l, a) then 1 else 0)
  {
    hide Apply, ApplyWork;
    BrokerChange(c, st, l);
    var sel := N.DueBy(a);
    if IsLease(l) {
      N.LeaseCount(st.broker, l.step.job.storeId, l.step.job, sel);
    } else if l.Work? && l.step.Release? {
      N.ReleaseCount(st.broker, st.workers[l.w].store, sel);
    } else if l.OpenQueue? {
      N.EnsureCount(st.broker, l.id, st.stores[l.id].ordered, st.stores[l.id].maxInFlight, sel);
    } else if Enqueues(c, st, l).Some? {
      var j := Enqueues(c, st, l).value;
      N.EnqueueCount(st.broker, j, st.stores[j.storeId].ordered, st.stores[j.storeId].maxInFlight, sel);
    }
  }

  /** j waits for a store that has room. */
  ghost predicate WaitsWithRoom(st: Sys, j: Job) {
    j.storeId in st.broker && j in st.broker[j.storeId].ready && B.HasRoom(st.broker[j.storeId])
  }

  ghost predicate Waits(st: Sys, j: Job) {
    j.storeId in st.broker && j in st.broker[j.storeId].ready
  }

  /** While j waits with room, whatever is leased is due no later than j. */
  lemma LeasedNoLater(c: Config, st: Sys, l: Label, j: Job)
    requires Enabled(c, st, l) && IsLease(l) && WaitsWithRoom(st, j)
    ensures l.step.job.notBefore <= j.notBefore
  {
  }

  /** How many of steps 0, ..., n - 1 are Leases made while j waits and its store has room. */
  ghost function Overtakes(states: seq<Sys>, labels: seq<Label>, j: Job, n: nat): nat
    requires n <= |labels| && |states| == |labels| + 1
  {
    if n == 0 then 0
    else
      Overtakes(states, labels, j, n - 1)
      + if IsLease(labels[n - 1]) && WaitsWithRoom(states[n - 1], j) then 1 else 0
  }

  /** How many of steps 0, ..., n - 1 enqueue a job that is due by a. */
  ghost function LateOnes(c: Config, states: seq<Sys>, labels: seq<Label>, a: Time, n: nat): nat
    requires n <= |labels| && |states| == |labels| + 1
  {
    if n == 0 then 0
    else LateOnes(c, states, labels, a, n - 1) + if Late(c, states[n - 1], labels[n - 1], a) then 1 else 0
  }

  lemma {:induction false} OvertakesBound(c: Config, states: seq<Sys>, labels: seq<Label>, j: Job, n: nat)
    requires IsRun(c, states, labels) && n <= |labels|
    ensures Ahead(states[n], j.notBefore) + Overtakes(states, labels, j, n)
         <= Ahead(states[0], j.notBefore) + LateOnes(c, states, labels, j.notBefore, n)
  {
    hide Enabled, Apply, Ahead, Late, WaitsWithRoom;
    if n > 0 {
      OvertakesBound(c, states, labels, j, n - 1);
      var st, l := states[n - 1], labels[n - 1];
      assert Steps(c, st, l, states[n]);
      AheadChanges(c, st, l, j.notBefore);
      if IsLease(l) && WaitsWithRoom(st, j) {
        LeasedNoLater(c, st, l, j);
      }
    }
  }

  lemma WaitingIsAhead(st: Sys, j: Job)
    requires Waits(st, j)
    ensures Ahead(st, j.notBefore) >= 1
  {
    N.WaitingSplit(st.broker, st.broker.Keys, j.storeId, N.DueBy(j.notBefore));
    N.TakeOut(st.broker[j.storeId].ready, j, N.DueBy(j.notBefore));
  }

  /** A job that stops waiting has been leased. */
  lemma LeavesByLease(c: Config, st: Sys, l: Label, j: Job)
    requires Enabled(c, st, l) && Waits(st, j) && !Waits(Apply(c, st, l), j)
    ensures IsLease(l) && l.step.job == j
  {
    hide Apply, ApplyWork;
    BrokerChange(c, st, l);
  }

  lemma {:induction false} Reached(c: Config, states: seq<Sys>, labels: seq<Label>, m: nat, n: nat)
    requires GoodConfig(c) && IsRun(c, states, labels) && Initial(states[0]) && m <= n <= |labels|
    ensures WaitsPositive(states[n])
  {
    T.DisciplinedHolds(c, states, labels, n);
    assert forall w :: 0 <= w < |states[n].workers| ==> T.HandOk(c, states[n].hist, states[n].workers[w]);
  }

  lemma RestIsRun(c: Config, states: seq<Sys>, labels: seq<Label>, m: nat)
    requires IsRun(c, states, labels) && m <= |labels|
    ensures IsRun(c, states[m..], labels[m..])
  {
    hide Steps;
    var ss, ls := states[m..], labels[m..];
    forall i | 0 <= i < |ls|
      ensures Steps(c, ss[i], ls[i], ss[i + 1])
    {
      assert Steps(c, states[m + i], labels[m + i], states[m + i + 1]);
    }
  }

  /** Bounded overtaking, over any run: while a job waits, the Leases made with room in its store are
      fewer than the jobs that were due no later than it, itself included, when the count began, and
      those enqueued since that are due no later. */
  lemma BoundedOvertaking(c: Config, states: seq<Sys>, labels: seq<Label>, m: nat, n: nat, j: Job)
    requires IsRun(c, states, labels) && m <= n <= |labels| && Waits(states[n], j)
    ensures Overtakes(states[m..], labels[m..], j, n - m)
          < Ahead(states[m], j.notBefore) + LateOnes(c, states[m..], labels[m..], j.notBefore, n - m)
  {
    hide Steps, Ahead, Overtakes, LateOnes, Waits;
    RestIsRun(c, states, labels, m);
    OvertakesBound(c, states[m..], labels[m..], j, n - m);
    WaitingIsAhead(states[n], j);
  }

  lemma {:induction false} NoneLate(c: Config, states: seq<Sys>, labels: seq<Label>, a: Time, n: nat)
    requires n <= |labels| && |states| == |labels| + 1
    requires forall i :: 0 <= i < n ==> FreshRead(labels[i], a) && WaitsPositive(states[i])
    ensures LateOnes(c, states, labels, a, n) == 0
  {
    if n > 0 {
      NoneLate(c, states, labels, a, n - 1);
      if Enabled(c, states[n - 1], labels[n - 1]) {
        EnqueuedLater(c, states[n - 1], labels[n - 1], a);
      }
    }
  }

  lemma NoneLateFrom(c: Config, states: seq<Sys>, labels: seq<Label>, m: nat, n: nat, a: Time)
    requires GoodConfig(c) && IsRun(c, states, labels) && Initial(states[0]) && m <= n <= |labels|
    requires forall i :: m <= i < n ==> FreshRead(labels[i], a)
    ensures LateOnes(c, states[m..], labels[m..], a, n - m) == 0
  {
    hide Steps, LateOnes, FreshRead, WaitsPositive, Initial;
    var ss, ls := states[m..], labels[m..];
    forall i | 0 <= i < n - m
      ensures FreshRead(ls[i], a) && WaitsPositive(ss[i])
    {
      Reached(c, states, labels, m, m + i);
    }
    NoneLate(c, ss, ls, a, n - m);
  }

  /** No enqueue is late that stamps its job from a reading past the due time, so then the count
      before is the bound, and the jobs counted only become fewer. */
  lemma BoundedOvertakingFresh(c: Config, states: seq<Sys>, labels: seq<Label>, m: nat, n: nat, j: Job)
    requires GoodConfig(c) && IsRun(c, states, labels) && Initial(states[0]) && m <= n <= |labels|
    requires Waits(states[n], j)
    requires forall i :: m <= i < n ==> FreshRead(labels[i], j.notBefore)
    ensures Overtakes(states[m..], labels[m..], j, n - m) < Ahead(states[m], j.notBefore)
    ensures Ahead(states[n], j.notBefore) <= Ahead(states[m], j.notBefore)
  {
    hide Steps, Ahead, Overtakes, LateOnes, Waits, FreshRead, Initial;
    NoneLateFrom(c, states, labels, m, n, j.notBefore);
    BoundedOvertaking(c, states, labels, m, n, j);
    RestIsRun(c, states, labels, m);
    OvertakesBound(c, states[m..], labels[m..], j, n - m);
  }

  /** The step reads the clock in the very state it takes effect in. */
  predicate ReadsNow(st: Sys, l: Label) {
    FreshRead(l, st.now - 1)
  }

  lemma {:induction false} ClockAdvances(c: Config, states: seq<Sys>, labels: seq<Label>, m: nat, n: nat)
    requires IsRun(c, states, labels) && m <= n <= |labels|
    ensures states[m].now <= states[n].now
    decreases n
  {
    hide Enabled, Apply;
    if m < n {
      ClockAdvances(c, states, labels, m, n - 1);
      assert Steps(c, states[n - 1], labels[n - 1], states[n]);
      ClockStep(c, states[n - 1], labels[n - 1]);
    }
  }

  lemma ClockStep(c: Config, st: Sys, l: Label)
    requires Enabled(c, st, l)
    ensures st.now <= Apply(c, st, l).now
  {
    hide ApplyWork;
    if l.Work? {
      ClockWork(c, st, l.w, l.step);
    }
  }

  /** No worker moves the clock. */
  lemma ClockWork(c: Config, st: Sys, w: nat, s: WorkerStep)
    requires w < |st.workers| && WorkerEnabled(c, st, st.workers[w], s)
    ensures ApplyWork(c, st, w, s).now == st.now
  {
    hide C.AllowOf, R.TakeOf, C.FailureOf;
  }

  /** In particular: when no step works with a stale clock reading, overtaking is bounded from the
      moment the clock has passed the job's due time. */
  lemma BoundedOvertakingOnTime(c: Config, states: seq<Sys>, labels: seq<Label>, m: nat, n: nat, j: Job)
    requires GoodConfig(c) && IsRun(c, states, labels) && Initial(states[0]) && m <= n <= |labels|
    requires Waits(states[n], j) && j.notBefore < states[m].now
    requires forall i :: m <= i < n ==> ReadsNow(states[i], labels[i])
    ensures Overtakes(states[m..], labels[m..], j, n - m) < Ahead(states[m], j.notBefore)
  {
    forall i | m <= i < n
      ensures FreshRead(labels[i], j.notBefore)
    {
      ClockAdvances(c, states, labels, m, i);
      assert ReadsNow(states[i], labels[i]);
    }
    BoundedOvertakingFresh(c, states, labels, m, n, j);
  }

  // ---------- How many late enqueues there can be ----------

  /** l puts the job of a worker back, and k is a step of the same worker. */
  predicate PutsBackAfter(k: Label, l: Label) {
    k.Work? && l.Work? && k.w == l.w && (l.step.Requeue? || l.step.Retry?)
  }

  /** A worker reads the clock within handle: after the step it made before. */
  ghost predicate Prompt(states: seq<Sys>, labels: seq<Label>)
    requires |states| == |labels| + 1
  {
    forall k, i :: 0 <= k < i < |labels| && PutsBackAfter(labels[k], labels[i]) ==>
      states[k].now <= labels[i].step.readAt
  }

  /** The workers about to put their job back. */
  ghost function PuttingBack(st: Sys): set<nat> {
    set w: nat | w < |st.workers| && (st.workers[w].Deferred? || st.workers[w].Settling?)
  }

  /** An ingest or a replay enqueues with a reading no later than a. */
  predicate StaleCall(l: Label, a: Time) {
    (l.RelayFrame? || l.ReplayDead? || l.ReplayJournal?) && l.readAt <= a
  }

  function StaleCalls(labels: seq<Label>, a: Time, n: nat): nat
    requires n <= |labels|
  {
    if n == 0 then 0 else StaleCalls(labels, a, n - 1) + if StaleCall(labels[n - 1], a) then 1 else 0
  }

  /** The workers among whose steps 0, ..., n - 1 there is a late enqueue. */
  ghost function LateWorkers(c: Config, states: seq<Sys>, labels: seq<Label>, a: Time, n: nat): set<nat>
    requires n <= |labels| && |states| == |labels| + 1
  {
    if n == 0 then {}
    else
      var l := labels[n - 1];
      LateWorkers(c, states, labels, a, n - 1) + if Late(c, states[n - 1], l, a) && l.Work? then {l.w} else {}
  }

  /** Whoever enqueues late used an old reading. */
  lemma LateIsStale(c: Config, st: Sys, l: Label, a: Time)
    requires Late(c, st, l, a) && WaitsPositive(st)
    ensures !StaleCall(l, a) ==>
      l.Work? && (l.step.Requeue? || l.step.Retry?) && l.step.readAt <= a && l.w in PuttingBack(st)
  {
    if FreshRead(l, a) {
      EnqueuedLater(c, st, l, a);
    }
  }

  /** A worker that has taken no step stands where it stood. */
  lemma {:induction false} StoodStill(c: Config, states: seq<Sys>, labels: seq<Label>, n: nat, w: nat)
    requires IsRun(c, states, labels) && n <= |labels| && w < |states[n].workers|
    requires forall k :: 0 <= k < n ==> !(labels[k].Work? && labels[k].w == w)
    ensures w < |states[0].workers| && states[n].workers[w] == states[0].workers[w]
  {
    hide Enabled, Apply;
    if n > 0 {
      assert Steps(c, states[n - 1], labels[n - 1], states[n]);
      OthersStand(c, states[n - 1], labels[n - 1], w);
      StoodStill(c, states, labels, n - 1, w);
    }
  }

  lemma OthersStand(c: Config, st: Sys, l: Label, w: nat)
    requires Enabled(c, st, l) && w < |Apply(c, st, l).workers| && !(l.Work? && l.w == w)
    ensures w < |st.workers| && Apply(c, st, l).workers[w] == st.workers[w]
  {
    hide ApplyWork;
    if l.Work? {
      V.WorkKeepsTag(c, st, l.w, l.step);
    }
  }

  /** A late worker was about to put its job back when the count began, and it is its first step since. */
  lemma LateFirst(c: Config, states: seq<Sys>, labels: seq<Label>, a: Time, n: nat)
    requires IsRun(c, states, labels) && Prompt(states, labels) && n < |labels| && a < states[0].now
    requires WaitsPositive(states[n]) && Late(c, states[n], labels[n], a) && !StaleCall(labels[n], a)
    ensures labels[n].Work? && labels[n].w in PuttingBack(states[0])
    ensures forall k :: 0 <= k < n ==> !(labels[k].Work? && labels[k].w == labels[n].w)
  {
    hide Steps, WaitsPositive, Late;
    LateIsStale(c, states[n], labels[n], a);
    forall k | 0 <= k < n
      ensures !(labels[k].Work? && labels[k].w == labels[n].w)
    {
      ClockAdvances(c, states, labels, 0, k);
    }
    StoodStill(c, states, labels, n, labels[n].w);
  }

  ghost predicate HasStepped(labels: seq<Label>, n: nat, w: nat)
    requires n <= |labels|
  {
    exists k :: 0 <= k < n && labels[k].Work? && labels[k].w == w
  }

  lemma SteppedSince(labels: seq<Label>, n: nat, w: nat)
    requires 0 < n <= |labels|
    ensures HasStepped(labels, n - 1, w) ==> HasStepped(labels, n, w)
    ensures labels[n - 1].Work? && labels[n - 1].w == w ==> HasStepped(labels, n, w)
  {
  }

  /** The workers among whose steps there is a late one, counted once each. */
  ghost predicate LateCounted(c: Config, states: seq<Sys>, labels: seq<Label>, a: Time, n: nat)
    requires n <= |labels| && |states| == |labels| + 1
  {
    var ws := LateWorkers(c, states, labels, a, n);
    && ws <= PuttingBack(states[0]) && LateOnes(c, states, labels, a, n) <= |ws| + StaleCalls(labels, a, n)
    && forall w :: w in ws ==> HasStepped(labels, n, w)
  }

  lemma LateNext(c: Config, states: seq<Sys>, labels: seq<Label>, a: Time, n: nat)
    requires IsRun(c, states, labels) && Prompt(states, labels) && 0 < n <= |labels| && a < states[0].now
    requires WaitsPositive(states[n - 1]) && LateCounted(c, states, labels, a, n - 1)
    requires Late(c, states[n - 1], labels[n - 1], a) && !StaleCall(labels[n - 1], a)
    ensures LateCounted(c, states, labels, a, n)
  {
    hide Steps, Late, WaitsPositive, PuttingBack, Prompt, StaleCall, HasStepped;
    var l, ws := labels[n - 1], LateWorkers(c, states, labels, a, n - 1);
    LateFirst(c, states, labels, a, n - 1);
    NotStepped(labels, n - 1, l.w);
    assert LateWorkers(c, states, labels, a, n) == ws + {l.w};
    forall w | w in ws + {l.w}
      ensures HasStepped(labels, n, w)
    {
      SteppedSince(labels, n, w);
    }
  }

  lemma NotStepped(labels: seq<Label>, n: nat, w: nat)
    requires n <= |labels| && forall k :: 0 <= k < n ==> !(labels[k].Work? && labels[k].w == w)
    ensures !HasStepped(labels, n, w)
  {
  }

  lemma {:induction false} LateOnce(c: Config, states: seq<Sys>, labels: seq<Label>, a: Time, n: nat)
    requires IsRun(c, states, labels) && Prompt(states, labels) && n <= |labels| && a < states[0].now
    requires forall i :: 0 <= i < n ==> WaitsPositive(states[i])
    ensures LateCounted(c, states, labels, a, n)
  {
    hide Steps, Late, WaitsPositive, PuttingBack, Prompt, HasStepped;
    if n > 0 {
      LateOnce(c, states, labels, a, n - 1);
      var l, ws := labels[n - 1], LateWorkers(c, states, labels, a, n - 1);
      if Late(c, states[n - 1], l, a) && !StaleCall(l, a) {
        LateNext(c, states, labels, a, n);
      } else {
        assert LateWorkers(c, states, labels, a, n) == ws;
        forall w | w in ws
          ensures HasStepped(labels, n, w)
        {
          SteppedSince(labels, n, w);
        }
      }
    }
  }

  /** Once the clock has passed an instant, the enqueues of jobs due by it are at most the workers that
      stood before putting their job back, one each, and those of the calls of ingest and replay that
      had read the clock by then. */
  lemma LateOnesBound(c: Config, states: seq<Sys>, labels: seq<Label>, m: nat, n: nat, a: Time)
    requires GoodConfig(c) && IsRun(c, states, labels) && Initial(states[0]) && m <= n <= |labels|
    requires Prompt(states, labels) && a < states[m].now
    ensures LateOnes(c, states[m..], labels[m..], a, n - m) <=
      |PuttingBack(states[m])| + StaleCalls(labels[m..], a, n - m)
  {
    hide Steps, LateOnes, WaitsPositive, Initial, PuttingBack;
    var ss, ls := states[m..], labels[m..];
    RestIsRun(c, states, labels, m);
    RestIsPrompt(states, labels, m);
    forall i | 0 <= i < n - m
      ensures WaitsPositive(ss[i])
    {
      Reached(c, states, labels, m, m + i);
    }
    LateOnce(c, ss, ls, a, n - m);
    SubsetSize(LateWorkers(c, ss, ls, a, n - m), PuttingBack(states[m]));
  }

  lemma RestIsPrompt(states: seq<Sys>, labels: seq<Label>, m: nat)
    requires |states| == |labels| + 1 && m <= |labels| && Prompt(states, labels)
    ensures Prompt(states[m..], labels[m..])
  {
    var ss, ls := states[m..], labels[m..];
    forall k, i | 0 <= k < i < |ls| && PutsBackAfter(ls[k], ls[i])
      ensures ss[k].now <= ls[i].step.readAt
    {
      assert ls[k] == labels[m + k] && ls[i] == labels[m + i];
    }
  }

  lemma {:induction false} SubsetSize(a: set<nat>, b: set<nat>)
    requires a <= b
    ensures |a| <= |b|
    decreases a
  {
    if a != {} {
      var x :| x in a;
      SubsetSize(a - {x}, b - {x});
    }
  }

  /** So from the moment the clock has passed its due time, a waiting job is overtaken by fewer Leases
      than jobs that were due then, workers that stood before putting one back, and enqueues of calls
      that had read the clock by then. */
  lemma OvertakingAfterDue(c: Config, states: seq<Sys>, labels: seq<Label>, m: nat, n: nat, j: Job)
    requires GoodConfig(c) && IsRun(c, states, labels) && Initial(states[0]) && m <= n <= |labels|
    requires Prompt(states, labels) && Waits(states[n], j) && j.notBefore < states[m].now
    ensures Overtakes(states[m..], labels[m..], j, n - m)
          < Ahead(states[m], j.notBefore) + |PuttingBack(states[m])| + StaleCalls(labels[m..], j.notBefore, n - m)
  {
    hide Steps, Ahead, Overtakes, LateOnes, Waits, Initial, PuttingBack, StaleCalls, Prompt;
    BoundedOvertaking(c, states, labels, m, n, j);
    LateOnesBound(c, states, labels, m, n, j.notBefore);
  }
}
