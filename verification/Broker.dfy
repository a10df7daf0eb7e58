/** The broker of internal/queue: one due-time heap and one concurrency limit per store. */
module Brokers {
  import opened Common
  import opened Jobs
  import opened DueHeaps

  // ---------- What a broker stands for ----------

  /** A store's queue: its limits and the multiset of jobs waiting in it. */
  datatype QueueView = QueueView(ordered: bool, maxFlight: nat, inFlight: nat, ready: multiset<Job>)

  /** The abstract broker. */
  type View = map<Id, QueueView>

  datatype Meta = Meta(ordered: bool, maxInFlight: int)

  /** newDestQueue. */
  function NewQueue(ordered: bool, maxFlight: int): QueueView {
    QueueView(ordered, if ordered || maxFlight < 1 then 1 else maxFlight, 0, multiset{})
  }

  function EnsureView(v: View, id: Id, ordered: bool, maxFlight: int): View {
    if id in v then v else v[id := NewQueue(ordered, maxFlight)]
  }

  function EnqueueView(v: View, j: Job, ordered: bool, maxFlight: int): View {
    var e := EnsureView(v, j.storeId, ordered, maxFlight);
    var q := e[j.storeId];
    e[j.storeId := q.(ready := q.ready + multiset{j})]
  }

  predicate HasRoom(q: QueueView) {
    q.inFlight < q.maxFlight
  }

  /** Job j of store id may be the next one handed out: due, first in its own store, and due
      no later than any job of any store that has room. */
  ghost predicate Leasable(v: View, now: Time, id: Id, j: Job) {
    && id in v && HasRoom(v[id]) && j in v[id].ready && j.notBefore <= now
    && (forall k :: k in v[id].ready ==> !Before(k, j))
    && (forall s, k :: s in v && HasRoom(v[s]) && k in v[s].ready ==> j.notBefore <= k.notBefore)
  }

  ghost predicate NothingDue(v: View, now: Time) {
    forall s, k :: s in v && HasRoom(v[s]) && k in v[s].ready ==> now < k.notBefore
  }

  function LeaseView(v: View, id: Id, j: Job): View
    requires id in v
  {
    v[id := v[id].(inFlight := v[id].inFlight + 1, ready := v[id].ready - multiset{j})]
  }

  function ReleaseView(v: View, id: Id): View {
    if id in v && v[id].inFlight > 0 then v[id := v[id].(inFlight := v[id].inFlight - 1)] else v
  }

  /** A missing queue is made with the store's limit, 1 when ordered or when the limit is below 1; an
      existing one keeps everything but gains the job, and no other store's queue changes. */
  lemma EnqueueMeans(v: View, j: Job, ordered: bool, maxFlight: int)
    ensures var r, id := EnqueueView(v, j, ordered, maxFlight), j.storeId;
      && r.Keys == v.Keys + {id} && (forall s :: s in v && s != id ==> r[s] == v[s])
      && r[id] == if id in v then v[id].(ready := v[id].ready + multiset{j})
                  else QueueView(ordered, if ordered || maxFlight < 1 then 1 else maxFlight, 0, multiset{j})
    ensures var r, id := EnsureView(v, j.storeId, ordered, maxFlight), j.storeId;
      && r.Keys == v.Keys + {id} && (forall s :: s in v ==> r[s] == v[s])
      && (id !in v ==> r[id] == QueueView(ordered, if ordered || maxFlight < 1 then 1 else maxFlight, 0, multiset{}))
  {
  }

  /** A slot comes back to this store, if it has one out. */
  lemma ReleaseMeans(v: View, id: Id)
    ensures var r := ReleaseView(v, id);
      && r.Keys == v.Keys && (forall s :: s in v && s != id ==> r[s] == v[s])
      && (id in v ==> r[id] == v[id].(inFlight := if v[id].inFlight > 0 then v[id].inFlight - 1 else 0))
  {
  }

  /** Which job may be handed out, in terms of its times: it is due, first by due time, then creation
      time, in its own store, and by due time among all stores with room. */
  lemma LeaseMeans(v: View, now: Time, id: Id, j: Job)
    ensures Leasable(v, now, id, j) <==>
      && id in v && v[id].inFlight < v[id].maxFlight && j in v[id].ready && j.notBefore <= now
      && (forall k :: k in v[id].ready ==>
            j.notBefore < k.notBefore || (j.notBefore == k.notBefore && j.createdAt <= k.createdAt))
      && (forall s, k :: s in v && v[s].inFlight < v[s].maxFlight && k in v[s].ready ==> j.notBefore <= k.notBefore)
    ensures id in v ==>
      LeaseView(v, id, j) == v[id := v[id].(inFlight := v[id].inFlight + 1, ready := v[id].ready - multiset{j})]
  {
  }

  /** Nothing is handed out exactly when no job of a store with room is due. */
  lemma NothingMeans(v: View, now: Time)
    ensures NothingDue(v, now) <==>
      forall s, k :: s in v && v[s].inFlight < v[s].maxFlight && k in v[s].ready ==> now < k.notBefore
  {
  }

  /** Jobs waiting in the stores of ids. */
  ghost function ReadyIn(v: View, ids: set<Id>): multiset<Job>
    requires ids <= v.Keys
  {
    if ids == {} then multiset{}
    else
      var id :| id in ids;
      v[id].ready + ReadyIn(v, ids - {id})
  }

  /** Waiting and leased jobs of the stores of ids. */
  ghost function DepthIn(v: View, ids: set<Id>): nat
    requires ids <= v.Keys
  {
    if ids == {} then 0
    else
      var id :| id in ids;
      |v[id].ready| + v[id].inFlight + DepthIn(v, ids - {id})
  }

  ghost function DepthOf(v: View): nat {
    DepthIn(v, v.Keys)
  }

  /** Any store may be the one the sum takes out first. */
  lemma {:induction false} ReadySplit(v: View, ids: set<Id>, id: Id)
    requires ids <= v.Keys && id in ids
    ensures ReadyIn(v, ids) == v[id].ready + ReadyIn(v, ids - {id})
    decreases ids
  {
    var c :| c in ids && ReadyIn(v, ids) == v[c].ready + ReadyIn(v, ids - {c});
    if c != id {
      ReadySplit(v, ids - {c}, id);
      ReadySplit(v, ids - {id}, c);
      assert ids - {c} - {id} == ids - {id} - {c};
    }
  }

  lemma {:induction false} DepthSplit(v: View, ids: set<Id>, id: Id)
    requires ids <= v.Keys && id in ids
    ensures DepthIn(v, ids) == |v[id].ready| + v[id].inFlight + DepthIn(v, ids - {id})
    decreases ids
  {
    var c :| c in ids && DepthIn(v, ids) == |v[c].ready| + v[c].inFlight + DepthIn(v, ids - {c});
    if c != id {
      DepthSplit(v, ids - {c}, id);
      DepthSplit(v, ids - {id}, c);
      assert ids - {c} - {id} == ids - {id} - {c};
    }
  }

  function MetaView(meta: map<Id, Meta>, ids: set<Id>): View
    requires ids <= meta.Keys
  {
    map id | id in ids :: NewQueue(meta[id].ordered, meta[id].maxInFlight)
  }

  lemma MetaStep(meta: map<Id, Meta>, done: set<Id>, id: Id)
    requires done <= meta.Keys && id in meta && id !in done
    ensures EnsureView(MetaView(meta, done), id, meta[id].ordered, meta[id].maxInFlight) == MetaView(meta, done + {id})
  {
  }

  function RestoreView(jobs: seq<Job>, meta: map<Id, Meta>): View {
    if jobs == [] then MetaView(meta, meta.Keys)
    else EnqueueView(RestoreView(jobs[..|jobs| - 1], meta), jobs[|jobs| - 1], false, 2)
  }

  /** A queue made by a job alone, for a store the metadata does not name, is unordered with limit 2. */
  lemma {:induction false} RestoredStray(jobs: seq<Job>, meta: map<Id, Meta>, id: Id)
    requires id !in meta
    ensures var r := RestoreView(jobs, meta);
      && (id in r <==> exists i :: 0 <= i < |jobs| && jobs[i].storeId == id)
      && (id in r ==> !r[id].ordered && r[id].maxFlight == 2 && r[id].inFlight == 0)
  {
    if jobs != [] {
      var n := |jobs| - 1;
      RestoredStray(jobs[..n], meta, id);
      assert (exists i :: 0 <= i < |jobs| && jobs[i].storeId == id) <==>
             jobs[n].storeId == id || exists i :: 0 <= i < n && jobs[..n][i].storeId == id;
    }
  }

  // ---------- The broker itself ----------

  class DestQueue {
    const id: Id
    const ordered: bool
    var inFlight: nat
    const maxFlight: nat
    const ready: DueHeap

    constructor (id: Id, ordered: bool, maxFlight: int)
      ensures this.id == id && Shows(NewQueue(ordered, maxFlight)) && fresh(ready) && ready.items == []
      ensures this.ordered == ordered && inFlight == 0
      ensures this.maxFlight == if ordered || maxFlight < 1 then 1 else maxFlight
    {
      var m := maxFlight;
      if m < 1 {
        m := 1;
      }
      if ordered {
        m := 1;
      }
      this.id, this.ordered, this.maxFlight, inFlight := id, ordered, m, 0;
      ready := new DueHeap();
    }

    /** A heap of these items, all of this store's jobs, and this many in flight stand for q. */
    ghost predicate StandsFor(q: QueueView, items: seq<Item>, inFlight: nat) {
      && IsHeap(JobsOf(items)) && q == QueueView(ordered, maxFlight, inFlight, multiset(JobsOf(items)))
      && forall i :: 0 <= i < |items| ==> items[i].job.storeId == id
    }

    ghost predicate Shows(q: QueueView)
      reads this, ready, ready.items
    {
      ready.Indexed() && StandsFor(q, ready.items, inFlight)
    }

    /** heap.Push(&ready, &item{j}). */
    method Push(j: Job, ghost q: QueueView) returns (x: Item)
      requires Shows(q) && j.storeId == id
      modifies ready, ready.items
      ensures fresh(x) && forall y :: y in ready.items <==> y in old(ready.items) || y == x
      ensures Shows(q.(ready := q.ready + multiset{j}))
    {
      hide IsHeap;
      PushKeepsHeap(JobsOf(ready.items), j);
      x := new Item(j);
      ready.HeapPush(x);
      assert forall i :: 0 <= i < |ready.items| ==> ready.items[i] in ready.items;
    }

    /** heap.Pop(&ready), and the slot the popped job takes. */
    method PopLeased(ghost q: QueueView) returns (j: Job)
      requires Shows(q) && |ready.items| > 0
      modifies this`inFlight, ready, ready.items
      ensures j == old(ready.items[0].job) && forall y :: y in ready.items ==> y in old(ready.items)
      ensures Shows(q.(inFlight := q.inFlight + 1, ready := q.ready - multiset{j}))
    {
      hide IsHeap, PopSeq;
      var x := ready.HeapPop();
      HeadTaken(q, old(ready.items), ready.items);
      j := x.job;
      inFlight := inFlight + 1;
    }

    /** What is left of a heap without its head stands for the queue without that job. */
    lemma HeadTaken(q: QueueView, was: seq<Item>, now: seq<Item>)
      requires StandsFor(q, was, inFlight) && 0 < |was|
      requires JobsOf(now) == PopSeq(JobsOf(was)) && forall y :: y in now ==> y in was
      ensures StandsFor(q.(inFlight := q.inFlight + 1, ready := q.ready - multiset{was[0].job}), now, inFlight + 1)
    {
      hide IsHeap, PopSeq;
      PopKeepsHeap(JobsOf(was));
      assert forall i :: 0 <= i < |now| ==> now[i] in now;
    }

    method Release(ghost q: QueueView)
      requires Shows(q) && inFlight > 0
      modifies this`inFlight
      ensures q.inFlight > 0 && Shows(q.(inFlight := q.inFlight - 1))
    {
      inFlight := inFlight - 1;
    }
  }

  class Broker {
    var dests: map<Id, DestQueue>
    ghost var view: View
    ghost var heaps: set<DueHeap>  // the heaps of dests
    ghost var cells: set<Item>     // at least the items in them

    ghost predicate Valid()
      reads this, dests.Values, heaps, cells
    {
      && view.Keys == dests.Keys
      && (forall id :: id in dests ==>
            && dests[id].id == id && dests[id].ready in heaps && (forall x :: x in dests[id].ready.items ==> x in cells)
            && dests[id].Shows(view[id]))
      && (forall a, b :: a in dests && b in dests && a != b ==> dests[a].ready != dests[b].ready)
    }

    /** No two stores share a heap or an item. */
    lemma Apart(a: Id, b: Id)
      requires Valid() && a in dests && b in dests && a != b
      ensures dests[a] != dests[b] && dests[a].ready != dests[b].ready
      ensures forall y :: y in dests[a].ready.items ==> y !in dests[b].ready.items
    {
      assert dests[a].Shows(view[a]) && dests[b].Shows(view[b]);
    }

    constructor ()
      ensures Valid() && view == map[] && dests == map[] && heaps == {} && cells == {}
    {
      dests := map[];
      view, heaps, cells := map[], {}, {};
    }

    method Ensure(id: Id, ordered: bool, maxFlight: int)
      requires Valid()
      modifies this
      ensures Valid() && fresh(dests.Values - old(dests.Values)) && fresh(heaps - old(heaps)) && cells == old(cells)
      ensures view == EnsureView(old(view), id, ordered, maxFlight)
    {
      hide DestQueue.Shows, NewQueue;
      if id in dests {
        return;
      }
      var d := new DestQueue(id, ordered, maxFlight);
      dests := dests[id := d];
      view, heaps := EnsureView(view, id, ordered, maxFlight), heaps + {d.ready};
    }

    method Enqueue(j: Job, ordered: bool, maxFlight: int)
      requires Valid()
      modifies this, dests.Values, heaps, cells
      ensures Valid() && fresh(dests.Values - old(dests.Values)) && fresh(heaps - old(heaps))
      ensures fresh(cells - old(cells))
      ensures view == EnqueueView(old(view), j, ordered, maxFlight)
    {
      Ensure(j.storeId, ordered, maxFlight);
      PushOn(j.storeId, j);
    }

    /** What Valid says of one store. */
    ghost predicate Home(id: Id)
      reads this, dests.Values, heaps, cells
    {
      && id in dests && id in view && dests[id].id == id && dests[id].ready in heaps
      && (forall x :: x in dests[id].ready.items ==> x in cells) && dests[id].Shows(view[id])
    }

    method PushOn(id: Id, j: Job)
      requires Valid() && id in dests && j.storeId == id
      modifies this`view, this`cells, dests[id].ready, dests[id].ready.items
      ensures Valid() && fresh(cells - old(cells))
      ensures view == old(view)[id := old(view)[id].(ready := old(view)[id].ready + multiset{j})]
    {
      hide DestQueue.Shows;
      var x := PushAlone(id, j);
      Account(id, x, view[id].(ready := view[id].ready + multiset{j}));
    }

    /** The view follows one store's heap. */
    ghost method Account(id: Id, x: Item, q: QueueView)
      requires view.Keys == dests.Keys && id in dests && dests[id].id == id && dests[id].ready in heaps
      requires forall a :: a in dests && a != id ==> Home(a)
      requires forall a, b :: a in dests && b in dests && a != b ==> dests[a].ready != dests[b].ready
      requires (forall y :: y in dests[id].ready.items ==> y in cells || y == x) && dests[id].Shows(q)
      modifies this`view, this`cells
      ensures Valid() && view == old(view)[id := q] && cells == old(cells) + {x}
    {
      hide DestQueue.Shows;
      view, cells := view[id := q], cells + {x};
    }

    /** A push on one store's heap leaves the other stores' alone. */
    method PushAlone(id: Id, j: Job) returns (x: Item)
      requires Valid() && id in dests && j.storeId == id
      modifies dests[id].ready, dests[id].ready.items
      ensures fresh(x) && forall y :: y in dests[id].ready.items <==> y in old(dests[id].ready.items) || y == x
      ensures dests[id].Shows(view[id].(ready := view[id].ready + multiset{j}))
      ensures forall a :: a in dests && a != id ==> Home(a)
    {
      hide DestQueue.StandsFor;
      forall a | a in dests && a != id {
        Apart(a, id);
      }
      x := dests[id].Push(j, view[id]);
      forall a | a in dests && a != id
        ensures dests[a].ready.Indexed()
      {
        assert dests[a].ready.items == old(dests[a].ready.items);
        assert forall y :: y in dests[a].ready.items ==> y !in old(dests[id].ready.items);
        assert forall y :: y in dests[a].ready.items ==> y.index == old(y.index);
      }
    }

    /** The scan at the start of Lease: the store with room whose head is due first, the stores
        looked at in whatever order the map yields them. */
    method PickDest(now: Time) returns (best: Option<DestQueue>)
      requires Valid()
      ensures best.None? <==> NothingDue(view, now)
      ensures best.Some? ==>
        && best.value.id in dests && dests[best.value.id] == best.value && |best.value.ready.items| > 0
        && Leasable(view, now, best.value.id, best.value.ready.items[0].job)
    {
      hide DestQueue.Shows, Leasable, NothingDue;
      best := None;
      var bestDue := 0;
      var todo := dests.Keys;
      while todo != {}
        invariant todo <= dests.Keys
        invariant best.Some? ==>
          && best.value.id in dests && dests[best.value.id] == best.value
          && DueHead(best.value, now) && bestDue == best.value.ready.items[0].job.notBefore
        invariant forall id :: id in dests && id !in todo && DueHead(dests[id], now) ==>
          best.Some? && bestDue <= dests[id].ready.items[0].job.notBefore
        decreases todo
      {
        var id :| id in todo;
        todo := todo - {id};
        var dq := dests[id];
        if dq.inFlight >= dq.maxFlight {
          continue;
        }
        if |dq.ready.items| == 0 {
          continue;
        }
        var head := dq.ready.items[0].job;
        if head.notBefore > now {
          continue;
        }
        if best.None? || head.notBefore < bestDue {
          best := Some(dq);
          bestDue := head.notBefore;
        }
      }
      DueFirst(best, bestDue, now);
    }

    /** What a scan has found out about the queues it has found out about what they stand for. */
    lemma DueFirst(best: Option<DestQueue>, bestDue: Time, now: Time)
      requires Valid()
      requires best.Some? ==>
        && best.value.id in dests && dests[best.value.id] == best.value
        && DueHead(best.value, now) && bestDue == best.value.ready.items[0].job.notBefore
      requires forall id :: id in dests && DueHead(dests[id], now) ==>
        best.Some? && bestDue <= dests[id].ready.items[0].job.notBefore
      ensures best.None? <==> NothingDue(view, now)
      ensures best.Some? ==> Leasable(view, now, best.value.id, best.value.ready.items[0].job)
    {
      forall s, k | s in view && HasRoom(view[s]) && k in view[s].ready
        ensures (best.None? ==> now < k.notBefore) && (best.Some? ==> bestDue <= k.notBefore)
      {
        HeadLeads(s, k);
      }
      if best.Some? {
        forall k | k in view[best.value.id].ready
          ensures !Before(k, best.value.ready.items[0].job)
        {
          HeadLeads(best.value.id, k);
        }
        assert best.value.Shows(view[best.value.id]);
        HeadIsThere(best.value, view[best.value.id]);
      }
    }

    /** A queue with a job waiting has a head, and the job does not come before it. */
    lemma HeadLeads(id: Id, k: Job)
      requires Valid() && id in dests && k in view[id].ready
      ensures |dests[id].ready.items| > 0 && !Before(k, dests[id].ready.items[0].job)
      ensures HasRoom(view[id]) <==> dests[id].inFlight < dests[id].maxFlight
    {
      assert dests[id].Shows(view[id]);
      HeadIsLeast(JobsOf(dests[id].ready.items), k);
    }

    /** Hands out the head of the store whose head is due first. */
    method Lease(now: Time) returns (r: Option<Job>, ghost id: Id)
      requires Valid()
      modifies this, dests.Values, heaps, cells
      ensures Valid() && dests == old(dests) && heaps == old(heaps) && cells == old(cells)
      ensures r.None? <==> NothingDue(old(view), now)
      ensures r.None? ==> view == old(view)
      ensures r.Some? ==> Leasable(old(view), now, id, r.value) && view == LeaseView(old(view), id, r.value)
    {
      hide Leasable, NothingDue, DestQueue.Shows;
      var best := PickDest(now);
      if best.None? {
        return None, "";
      }
      id := best.value.id;
      var j := LeaseFrom(best.value);
      r := Some(j);
    }

    method LeaseFrom(d: DestQueue) returns (j: Job)
      requires Valid() && d.id in dests && dests[d.id] == d && |d.ready.items| > 0
      modifies this`view, d, d.ready, d.ready.items
      ensures Valid() && j == old(d.ready.items[0].job) && view == LeaseView(old(view), d.id, j)
    {
      hide DestQueue.Shows;
      j := PopAlone(d);
      assert forall a :: a in dests && a != d.id ==> Home(a);
      view := LeaseView(view, d.id, j);
    }

    method PopAlone(d: DestQueue) returns (j: Job)
      requires Valid() && d.id in dests && dests[d.id] == d && |d.ready.items| > 0
      modifies d, d.ready, d.ready.items
      ensures j == old(d.ready.items[0].job) && forall y :: y in d.ready.items ==> y in old(d.ready.items)
      ensures d.Shows(LeaseView(view, d.id, j)[d.id])
      ensures forall a :: a in dests && a != d.id ==> Home(a)
    {
      hide DestQueue.StandsFor;
      forall a | a in dests && a != d.id {
        Apart(a, d.id);
      }
      j := d.PopLeased(view[d.id]);
      forall a | a in dests && a != d.id
        ensures dests[a].ready.Indexed()
      {
        assert dests[a].ready.items == old(dests[a].ready.items);
        assert forall y :: y in dests[a].ready.items ==> y !in old(d.ready.items);
        assert forall y :: y in dests[a].ready.items ==> y.index == old(y.index);
      }
    }

    method Release(id: Id)
      requires Valid()
      modifies this`view, dests.Values
      ensures Valid() && view == ReleaseView(old(view), id)
    {
      hide DestQueue.StandsFor;
      InFlightIs(id);
      if id in dests && dests[id].inFlight > 0 {
        forall a | a in dests && a != id {
          Apart(a, id);
        }
        dests[id].Release(view[id]);
        view := ReleaseView(view, id);
      }
    }

    lemma InFlightIs(id: Id)
      requires Valid()
      ensures id in dests ==> dests[id].inFlight == view[id].inFlight
    {
      assert id in dests ==> dests[id].Shows(view[id]);
    }

    method Depth() returns (n: nat)
      requires Valid()
      ensures n == DepthOf(view)
    {
      n := 0;
      var todo := dests.Keys;
      while todo != {}
        invariant todo <= dests.Keys
        invariant n + DepthIn(view, todo) == DepthOf(view)
        decreases todo
      {
        var id :| id in todo;
        DepthSplit(view, todo, id);
        todo := todo - {id};
        assert dests[id].Shows(view[id]);
        n := n + |dests[id].ready.items| + dests[id].inFlight;
      }
    }

    lemma WaitingIs(id: Id)
      requires Valid() && id in dests
      ensures multiset(JobsOf(dests[id].ready.items)) == view[id].ready
    {
      assert dests[id].Shows(view[id]);
    }

    /** The jobs waiting in every store; leased jobs are not among them. */
    method Snapshot() returns (out: seq<Job>)
      requires Valid()
      ensures multiset(out) == ReadyIn(view, view.Keys)
    {
      hide DestQueue.Shows;
      out := [];
      var todo := dests.Keys;
      while todo != {}
        invariant todo <= dests.Keys
        invariant multiset(out) + ReadyIn(view, todo) == ReadyIn(view, view.Keys)
        decreases todo
      {
        var id :| id in todo;
        ReadySplit(view, todo, id);
        todo := todo - {id};
        WaitingIs(id);
        out := out + JobsOf(dests[id].ready.items);
      }
    }

    /** Rebuilds every queue: the stores of `meta` first, then the jobs one by one. */
    method Restore(jobs: seq<Job>, meta: map<Id, Meta>)
      requires Valid()
      modifies this
      ensures Valid() && fresh(dests.Values) && fresh(heaps) && fresh(cells) && view == RestoreView(jobs, meta)
    {
      dests := map[];
      view, heaps, cells := map[], {}, {};
      EnsureAll(meta);
      EnqueueAll(jobs, meta);
    }

    method EnsureAll(meta: map<Id, Meta>)
      requires Valid() && view == map[]
      modifies this
      ensures Valid() && fresh(dests.Values - old(dests.Values)) && fresh(heaps - old(heaps)) && cells == old(cells)
      ensures view == MetaView(meta, meta.Keys)
    {
      var todo := meta.Keys;
      ghost var done: set<Id> := {};
      while todo != {}
        invariant todo + done == meta.Keys && todo !! done
        invariant Valid() && fresh(dests.Values - old(dests.Values)) && fresh(heaps - old(heaps)) && cells == old(cells)
        invariant view == MetaView(meta, done)
        decreases todo
      {
        var id :| id in todo;
        MetaStep(meta, done, id);
        Ensure(id, meta[id].ordered, meta[id].maxInFlight);
        todo, done := todo - {id}, done + {id};
      }
    }

    method EnqueueAll(jobs: seq<Job>, ghost meta: map<Id, Meta>)
      requires Valid() && view == MetaView(meta, meta.Keys)
      modifies this, dests.Values, heaps, cells
      ensures Valid() && fresh(dests.Values - old(dests.Values)) && fresh(heaps - old(heaps))
      ensures fresh(cells - old(cells))
      ensures view == RestoreView(jobs, meta)
    {
      for i := 0 to |jobs|
        invariant Valid()
        invariant fresh(dests.Values - old(dests.Values)) && fresh(heaps - old(heaps)) && fresh(cells - old(cells))
        invariant view == RestoreView(jobs[..i], meta)
      {
        assert jobs[..i + 1][..i] == jobs[..i];
        Enqueue(jobs[i], false, 2);
      }
      assert jobs[..|jobs|] == jobs;
    }
  }

  predicate DueHead(d: DestQueue, now: Time)
    reads d, d.ready, d.ready.items
  {
    d.inFlight < d.maxFlight && |d.ready.items| > 0 && d.ready.items[0].job.notBefore <= now
  }

  lemma HeadIsThere(d: DestQueue, q: QueueView)
    requires d.Shows(q) && |d.ready.items| > 0
    ensures d.ready.items[0].job in q.ready && (HasRoom(q) <==> d.inFlight < d.maxFlight)
  {
    assert JobsOf(d.ready.items)[0] in multiset(JobsOf(d.ready.items));
  }

  lemma HeadIsLeast(s: seq<Job>, k: Job)
    requires IsHeap(s) && k in multiset(s)
    ensures |s| > 0 && !Before(k, s[0])
  {
    var i :| 0 <= i < |s| && s[i] == k;
    RootIsLeast(s, i);
  }
}
