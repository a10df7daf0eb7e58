/** Counting the jobs that wait in a broker. */
module JobCounts {
  import opened Common
  import opened Jobs
  import B = Brokers

  /** How many jobs of m the selector picks. */
  ghost function JobsWith(m: multiset<Job>, r: Selector): nat {
    if m == multiset{} then 0
    else
      var j :| j in m;
      JobsWith(m - multiset{j}, r) + Picks(r, j)
  }

  datatype Selector =
    | WithRelay(relay: Id)  // carries this relay id
    | DueBy(at: Time)       // is due at this instant

  function Picks(r: Selector, j: Job): nat {
    match r
    case WithRelay(id) => if j.relayId == id then 1 else 0
    case DueBy(at) => if j.notBefore <= at then 1 else 0
  }

  lemma {:induction false} TakeOut(m: multiset<Job>, j: Job, r: Selector)
    requires j in m
    ensures JobsWith(m, r) == JobsWith(m - multiset{j}, r) + Picks(r, j)
    decreases |m|
  {
    hide Picks;
    var k :| k in m && JobsWith(m, r) == JobsWith(m - multiset{k}, r) + Picks(r, k);
    if k != j {
      EitherOrder(m, j, k);
      TakeOut(m - multiset{k}, j, r);
      TakeOut(m - multiset{j}, k, r);
    }
  }

  lemma EitherOrder(m: multiset<Job>, j: Job, k: Job)
    requires j in m && k in m && j != k
    ensures m - multiset{k} - multiset{j} == m - multiset{j} - multiset{k}
    ensures k in m - multiset{j} && j in m - multiset{k}
    ensures |m - multiset{k}| < |m| && |m - multiset{j}| < |m|
  {
  }

  lemma PutIn(m: multiset<Job>, j: Job, r: Selector)
    ensures JobsWith(m + multiset{j}, r) == JobsWith(m, r) + Picks(r, j)
  {
    TakeOut(m + multiset{j}, j, r);
    assert m + multiset{j} - multiset{j} == m;
  }

  /** How many jobs waiting in the stores of ids the selector picks. */
  ghost function WaitingIn(v: B.View, ids: set<Id>, r: Selector): nat
    requires ids <= v.Keys
  {
    if ids == {} then 0
    else
      var id :| id in ids;
      JobsWith(v[id].ready, r) + WaitingIn(v, ids - {id}, r)
  }

  ghost function Waiting(v: B.View, r: Selector): nat {
    WaitingIn(v, v.Keys, r)
  }

  lemma {:induction false} WaitingSplit(v: B.View, ids: set<Id>, id: Id, r: Selector)
    requires ids <= v.Keys && id in ids
    ensures WaitingIn(v, ids, r) == JobsWith(v[id].ready, r) + WaitingIn(v, ids - {id}, r)
    decreases ids
  {
    var c :| c in ids && WaitingIn(v, ids, r) == JobsWith(v[c].ready, r) + WaitingIn(v, ids - {c}, r);
    if c != id {
      WaitingSplit(v, ids - {c}, id, r);
      WaitingSplit(v, ids - {id}, c, r);
      assert ids - {c} - {id} == ids - {id} - {c};
    }
  }

  lemma {:induction false} WaitingAgree(v: B.View, u: B.View, ids: set<Id>, r: Selector)
    requires ids <= v.Keys && ids <= u.Keys && forall id :: id in ids ==> v[id].ready == u[id].ready
    ensures WaitingIn(v, ids, r) == WaitingIn(u, ids, r)
    decreases ids
  {
    if ids != {} {
      var id :| id in ids;
      WaitingSplit(v, ids, id, r);
      WaitingSplit(u, ids, id, r);
      WaitingAgree(v, u, ids - {id}, r);
    }
  }

  /** Changing one queue changes the sum by that queue's change. */
  lemma QueueChange(v: B.View, id: Id, q: B.QueueView, r: Selector)
    ensures Waiting(v[id := q], r) ==
      Waiting(v, r) + JobsWith(q.ready, r) - (if id in v then JobsWith(v[id].ready, r) else 0)
  {
    var u := v[id := q];
    WaitingSplit(u, u.Keys, id, r);
    assert u.Keys - {id} == v.Keys - {id};
    WaitingAgree(v, u, v.Keys - {id}, r);
    if id in v {
      WaitingSplit(v, v.Keys, id, r);
    } else {
      assert v.Keys - {id} == v.Keys;
    }
  }

  lemma EnsureCount(v: B.View, id: Id, ordered: bool, max: int, r: Selector)
    ensures Waiting(B.EnsureView(v, id, ordered, max), r) == Waiting(v, r)
  {
    if id !in v {
      QueueChange(v, id, B.NewQueue(ordered, max), r);
    }
  }

  lemma EnqueueCount(v: B.View, j: Job, ordered: bool, max: int, r: Selector)
    ensures Waiting(B.EnqueueView(v, j, ordered, max), r) == Waiting(v, r) + Picks(r, j)
  {
    EnsureCount(v, j.storeId, ordered, max, r);
    var e := B.EnsureView(v, j.storeId, ordered, max);
    var q := e[j.storeId];
    QueueChange(e, j.storeId, q.(ready := q.ready + multiset{j}), r);
    PutIn(q.ready, j, r);
  }

  lemma LeaseCount(v: B.View, id: Id, j: Job, r: Selector)
    requires id in v && j in v[id].ready
    ensures Waiting(v, r) == Waiting(B.LeaseView(v, id, j), r) + Picks(r, j)
  {
    hide Picks, JobsWith, Waiting;
    var q := v[id];
    QueueChange(v, id, q.(inFlight := q.inFlight + 1, ready := q.ready - multiset{j}), r);
    TakeOut(q.ready, j, r);
  }

  lemma ReleaseCount(v: B.View, id: Id, r: Selector)
    ensures Waiting(B.ReleaseView(v, id), r) == Waiting(v, r)
  {
    if id in v && v[id].inFlight > 0 {
      QueueChange(v, id, v[id].(inFlight := v[id].inFlight - 1), r);
    }
  }
}
