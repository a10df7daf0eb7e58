/** Restart: what Broker.Restore makes of what Broker.Snapshot captured (internal/store, internal/queue). */
module Snapshots {
  import opened Common
  import opened Jobs
  import opened Routing
  import opened DueHeaps
  import opened Delivery
  import B = Brokers
  import A = Accounts

  /** The queue limits store.Apply hands to Broker.Restore. */
  function MetaOf(stores: map<Id, Store>): map<Id, B.Meta> {
    map id | id in stores :: B.Meta(stores[id].ordered, stores[id].maxInFlight)
  }

  // ---------- The queues come back ----------

  /** Restore sorts the jobs into their own stores' queues, whatever order they come in. */
  lemma {:induction false} RestoredQueue(jobs: seq<Job>, meta: map<Id, B.Meta>, id: Id, j: Job)
    requires id in meta && forall i :: 0 <= i < |jobs| ==> jobs[i].storeId in meta
    ensures var r := B.RestoreView(jobs, meta);
      id in r && r[id].ready[j] == if j.storeId == id then multiset(jobs)[j] else 0
  {
    if jobs != [] {
      var n, last := |jobs| - 1, jobs[|jobs| - 1];
      RestoredKeys(jobs[..n], meta);
      RestoredQueue(jobs[..n], meta, id, j);
      assert jobs == jobs[..n] + [last];
    }
  }

  /** Snapshot lists each waiting job as often as its own store's queue does. */
  lemma {:induction false} WaitingAtHome(v: B.View, ids: set<Id>, j: Job)
    requires ids <= v.Keys && forall id, k :: id in ids && k in v[id].ready ==> k.storeId == id
    ensures B.ReadyIn(v, ids)[j] == if j.storeId in ids then v[j.storeId].ready[j] else 0
    decreases ids
  {
    if ids != {} {
      var id :| id in ids;
      B.ReadySplit(v, ids, id);
      WaitingAtHome(v, ids - {id}, j);
    }
  }

  lemma HomesKnown(st: Sys, jobs: seq<Job>)
    requires A.Accounted(st) && multiset(jobs) == B.ReadyIn(st.broker, st.broker.Keys)
    ensures forall id, k :: id in st.broker && k in st.broker[id].ready ==> k.storeId == id
    ensures forall i :: 0 <= i < |jobs| ==> jobs[i].storeId in st.stores
  {
    assert forall id :: id in st.broker ==> A.QueueOk(st, id);
    forall i | 0 <= i < |jobs|
      ensures jobs[i].storeId in st.stores
    {
      assert jobs[i] in multiset(jobs);
      WaitingAtHome(st.broker, st.broker.Keys, jobs[i]);
    }
  }

  /** In any reachable state, restoring what Snapshot captured, in any order, gives back every queue
      with its jobs and limits, and nothing in flight: only the leased jobs are gone. Stores without
      a queue get an empty one. */
  lemma RestartKeepsQueues(c: Config, states: seq<Sys>, labels: seq<Label>, i: nat, jobs: seq<Job>, id: Id)
    requires IsRun(c, states, labels) && Initial(states[0]) && i <= |labels|
    requires multiset(jobs) == B.ReadyIn(states[i].broker, states[i].broker.Keys)
    ensures var st, r := states[i], B.RestoreView(jobs, MetaOf(states[i].stores));
      && r.Keys == st.stores.Keys && st.broker.Keys <= r.Keys
      && (id in st.broker ==> r[id] == st.broker[id].(inFlight := 0))
      && (id in st.stores && id !in st.broker ==> r[id] == B.NewQueue(st.stores[id].ordered, st.stores[id].maxInFlight))
  {
    var st, meta := states[i], MetaOf(states[i].stores);
    A.AccountsHold(c, states, labels, i);
    HomesKnown(st, jobs);
    RestoredKeys(jobs, meta);
    assert forall k :: k in st.broker ==> A.QueueOk(st, k);
    if id in st.stores {
      RestoredReady(st.broker, jobs, meta, id);
    }
  }

  lemma RestoredReady(v: B.View, jobs: seq<Job>, meta: map<Id, B.Meta>, id: Id)
    requires id in meta && v.Keys <= meta.Keys && multiset(jobs) == B.ReadyIn(v, v.Keys)
    requires forall k, j :: k in v && j in v[k].ready ==> j.storeId == k
    requires forall i :: 0 <= i < |jobs| ==> jobs[i].storeId in meta
    ensures var r := B.RestoreView(jobs, meta);
      id in r && r[id] ==
        B.NewQueue(meta[id].ordered, meta[id].maxInFlight).(ready := if id in v then v[id].ready else multiset{})
  {
    RestoredKeys(jobs, meta);
    var r, q := B.RestoreView(jobs, meta)[id], B.NewQueue(meta[id].ordered, meta[id].maxInFlight);
    var m := if id in v then v[id].ready else multiset{};
    RestoredLimits(jobs, meta, id);
    forall j: Job
      ensures r.ready[j] == m[j]
    {
      RestoredQueue(jobs, meta, id, j);
      WaitingAtHome(v, v.Keys, j);
    }
    assert r.ready == m;
  }

  lemma {:induction false} RestoredLimits(jobs: seq<Job>, meta: map<Id, B.Meta>, id: Id)
    requires id in meta && forall i :: 0 <= i < |jobs| ==> jobs[i].storeId in meta
    ensures var r := B.RestoreView(jobs, meta);
      id in r && r[id].(ready := multiset{}) == B.NewQueue(meta[id].ordered, meta[id].maxInFlight)
  {
    if jobs != [] {
      RestoredKeys(jobs[..|jobs| - 1], meta);
      RestoredLimits(jobs[..|jobs| - 1], meta, id);
    }
  }

  lemma {:induction false} RestoredKeys(jobs: seq<Job>, meta: map<Id, B.Meta>)
    requires forall i :: 0 <= i < |jobs| ==> jobs[i].storeId in meta
    ensures B.RestoreView(jobs, meta).Keys == meta.Keys
  {
    if jobs != [] {
      RestoredKeys(jobs[..|jobs| - 1], meta);
    }
  }

  ghost predicate Unslotted(ws: seq<Phase>, id: Id) {
    forall w :: 0 <= w < |ws| ==> ws[w].Slot() != Some(id)
  }

  lemma IdleQueue(st: Sys, id: Id)
    requires A.Accounted(st) && id in st.broker
    ensures st.broker[id].inFlight == 0 <==> Unslotted(st.workers, id)
  {
    assert A.QueueOk(st, id);
    A.CountPositive(st.workers, A.OnStore(id));
    assert forall w :: 0 <= w < |st.workers| ==>
      (A.Selects(A.OnStore(id), st.workers[w]) <==> st.workers[w].Slot() == Some(id));
  }

  /** So the restart is exact precisely when no worker is between Lease and Release. */
  lemma RestartIsExactIff(c: Config, states: seq<Sys>, labels: seq<Label>, i: nat, jobs: seq<Job>)
    requires IsRun(c, states, labels) && Initial(states[0]) && i <= |labels|
    requires multiset(jobs) == B.ReadyIn(states[i].broker, states[i].broker.Keys)
    ensures var st, r := states[i], B.RestoreView(jobs, MetaOf(states[i].stores));
      (forall id :: id in st.broker ==> id in r && r[id] == st.broker[id]) <==>
      (forall w :: 0 <= w < |st.workers| ==> st.workers[w].Slot().None?)
  {
    hide Initial, Steps, A.QueueOk, B.RestoreView, B.ReadyIn, MetaOf;
    var st, r := states[i], B.RestoreView(jobs, MetaOf(states[i].stores));
    A.AccountsHold(c, states, labels, i);
    forall id | id in st.broker
      ensures id in r && r[id] == st.broker[id].(inFlight := 0)
      ensures st.broker[id].inFlight == 0 <==> Unslotted(st.workers, id)
    {
      RestartKeepsQueues(c, states, labels, i, jobs, id);
      IdleQueue(st, id);
    }
    if w :| 0 <= w < |st.workers| && st.workers[w].Slot().Some? {
      var id := st.workers[w].Slot().value;
      assert id in st.broker && st.broker[id].inFlight > 0;
    }
  }

  // ---------- The drain ----------

  datatype Key = Key(notBefore: Time, createdAt: Time)

  function KeyOf(j: Job): Key {
    Key(j.notBefore, j.createdAt)
  }

  function Keys(s: seq<Job>): (r: seq<Key>)
    ensures |r| == |s| && forall i :: 0 <= i < |r| ==> r[i] == KeyOf(s[i])
  {
    seq(|s|, i requires 0 <= i < |s| => KeyOf(s[i]))
  }

  /** The jobs in the order in which repeated Pops hand them out. */
  ghost function Drained(s: seq<Job>): seq<Job>
    decreases |s|
  {
    if s == [] then [] else [s[0]] + Drained(PopSeq(s))
  }

  lemma KeysConcat(a: seq<Job>, b: seq<Job>)
    ensures Keys(a + b) == Keys(a) + Keys(b)
  {
  }

  /** s without its element i. */
  function Rest<T>(s: seq<T>, i: nat): (r: seq<T>)
    requires i < |s|
    ensures |r| == |s| - 1
  {
    s[..i] + s[i + 1..]
  }

  lemma OneOut<T>(s: seq<T>, i: nat)
    requires i < |s|
    ensures multiset(s) == multiset(Rest(s, i)) + multiset{s[i]}
  {
    assert s == s[..i] + [s[i]] + s[i + 1..];
  }

  lemma OneKeyOut(s: seq<Job>, i: nat)
    requires i < |s|
    ensures multiset(Keys(s)) == multiset(Keys(Rest(s, i))) + multiset{KeyOf(s[i])}
  {
    OneOut(Keys(s), i);
    assert Rest(Keys(s), i) == Keys(Rest(s, i));
  }

  lemma Cancel<T>(m: multiset<T>, n: multiset<T>, x: T)
    requires m + multiset{x} == n + multiset{x}
    ensures m == n
  {
    assert m == m + multiset{x} - multiset{x};
    assert n == n + multiset{x} - multiset{x};
  }

  /** The keys of a multiset of jobs do not depend on the order they are listed in. */
  lemma {:induction false} KeysOfSame(a: seq<Job>, b: seq<Job>)
    requires multiset(a) == multiset(b)
    ensures multiset(Keys(a)) == multiset(Keys(b))
    decreases |a|
  {
    hide Keys, Rest;
    if a == [] {
      assert |multiset(b)| == 0;
      assert b == [];
    } else {
      assert a[0] in multiset(b);
      var i :| 0 <= i < |b| && b[i] == a[0];
      OneOut(a, 0);
      OneOut(b, i);
      Cancel(multiset(Rest(a, 0)), multiset(Rest(b, i)), a[0]);
      KeysOfSame(Rest(a, 0), Rest(b, i));
      OneKeyOut(a, 0);
      OneKeyOut(b, i);
    }
  }

  lemma PopLeavesRest(s: seq<Job>)
    requires IsHeap(s) && s != []
    ensures IsHeap(PopSeq(s)) && multiset(PopSeq(s)) == multiset(Rest(s, 0))
  {
    PopKeepsHeap(s);
    OneOut(s, 0);
    Cancel(multiset(PopSeq(s)), multiset(Rest(s, 0)), s[0]);
  }

  /** A Pop takes out one occurrence of the head's key. */
  lemma PopKeys(s: seq<Job>, rest: seq<Job>)
    requires s != [] && multiset(rest) == multiset(Rest(s, 0))
    ensures multiset(Keys(s)) == multiset(Keys(rest)) + multiset{KeyOf(s[0])}
  {
    KeysOfSame(rest, Rest(s, 0));
    OneKeyOut(s, 0);
  }

  /** Two heaps with the same keys have heads with the same key: both are least. */
  lemma SameHeadKey(s: seq<Job>, t: seq<Job>)
    requires IsHeap(s) && IsHeap(t) && s != [] && multiset(Keys(s)) == multiset(Keys(t))
    ensures t != [] && KeyOf(s[0]) == KeyOf(t[0])
  {
    assert |multiset(Keys(s))| == |multiset(Keys(t))|;
    assert Keys(s)[0] in multiset(Keys(t)) && Keys(t)[0] in multiset(Keys(s));
    var i :| 0 <= i < |t| && Keys(t)[i] == KeyOf(s[0]);
    var k :| 0 <= k < |s| && Keys(s)[k] == KeyOf(t[0]);
    RootIsLeast(t, i);
    RootIsLeast(s, k);
  }

  /** Heaps of the same jobs, however they were built, drain in the same sequence of due and
      creation times. */
  lemma {:induction false} DrainsAlike(s: seq<Job>, t: seq<Job>)
    requires IsHeap(s) && IsHeap(t) && multiset(Keys(s)) == multiset(Keys(t))
    ensures Keys(Drained(s)) == Keys(Drained(t))
    decreases |s|
  {
    if s == [] {
      assert |multiset(Keys(t))| == 0;
    } else {
      SameHeadKey(s, t);
      PopLeavesRest(s);
      PopLeavesRest(t);
      PopKeys(s, PopSeq(s));
      PopKeys(t, PopSeq(t));
      Cancel(multiset(Keys(PopSeq(s))), multiset(Keys(PopSeq(t))), KeyOf(s[0]));
      DrainsAlike(PopSeq(s), PopSeq(t));
      KeysConcat([s[0]], Drained(PopSeq(s)));
      KeysConcat([t[0]], Drained(PopSeq(t)));
    }
  }

  /** The broker before Snapshot and the broker after Restore: every queue drains alike. */
  lemma RestoredDrainsAlike(v: B.QueueView, r: B.QueueView, before: seq<Job>, after: seq<Job>)
    requires r.ready == v.ready && IsHeap(before) && IsHeap(after)
    requires multiset(before) == v.ready && multiset(after) == r.ready
    ensures Keys(Drained(before)) == Keys(Drained(after))
  {
    KeysOfSame(before, after);
    DrainsAlike(before, after);
  }
}
