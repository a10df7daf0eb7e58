/** The ingest pipeline of internal/ingest: verify, parse, nonce, idempotency, fan-out, enqueue. */
module Ingest {
  import opened Common
  import opened Jobs
  import opened Brokers
  import opened Routing
  import Admission

  datatype Parsed = Frame(typ: string) | SyntaxError | Unprocessable

  /** A request as the tests before the nonce book see it. What needs hashing, JSON or the
      header table is an arbitrary verdict. */
  datatype Request = Request(
    headersOk: bool, idemKeyOk: bool, secretsKnown: bool,
    nonceOk: bool, signatureWellFormed: bool, macMatches: bool, parsed: Parsed,
    timestamp: int, nonce: string, idemKey: string, body: Bytes, bodyHash: string)

  /** The clock readings of one Handle, in the order they are taken. */
  datatype Readings = Readings(
    verify: Time, nonceGc: Time, nonceCheck: Time, nonceStore: Time, now: Time, idemGc: Time, idemNow: Time)
  {
    predicate Ordered() {
      verify <= nonceGc <= nonceCheck <= nonceStore <= now <= idemGc <= idemNow
    }
  }

  datatype Reply = Reply(code: int, frameId: Id, replay: bool, relayIds: seq<Id>)

  function Refused(code: int): Reply {
    Reply(code, "", false, [])
  }

  /** The status of a request refused before the nonce book, None when it gets that far. */
  function EarlyRefusal(r: Request, window: Time, now: Time): Option<int> {
    if !r.headersOk || !r.idemKeyOk then Some(400)
    else if !r.secretsKnown then Some(401)
    else if !r.nonceOk || !r.signatureWellFormed then Some(401)
    else if !Admission.InWindow(now, window, r.timestamp) then Some(400)
    else if !r.macMatches then Some(401)
    else match r.parsed
      case SyntaxError => Some(400)
      case Unprocessable => Some(422)
      case Frame(t) => if ValidType(Trim(t)) then None else Some(422)
  }

  /** Every test in its turn: what is refused before the nonce book, and with which status. */
  lemma RefusalIs(r: Request, window: Time, now: Time)
    ensures var w := (if window <= 0 then 300 * SECOND else window) / SECOND;
      var skewed := now / SECOND < r.timestamp - w || r.timestamp + w < now / SECOND;
      var refusal := EarlyRefusal(r, window, now);
      && (refusal.None? <==>
            && r.headersOk && r.idemKeyOk && r.secretsKnown && r.nonceOk && r.signatureWellFormed && !skewed
            && r.macMatches && r.parsed.Frame? && ValidType(Trim(r.parsed.typ)))
      && (!r.headersOk || !r.idemKeyOk ==> refusal == Some(400))
      && (r.headersOk && r.idemKeyOk ==>
            && (!r.secretsKnown || !r.nonceOk || !r.signatureWellFormed ==> refusal == Some(401))
            && (r.secretsKnown && r.nonceOk && r.signatureWellFormed ==>
                  && (skewed ==> refusal == Some(400))
                  && (!skewed && !r.macMatches ==> refusal == Some(401))
                  && (!skewed && r.macMatches ==>
                        && (r.parsed.SyntaxError? ==> refusal == Some(400))
                        && (r.parsed.Unprocessable? ==> refusal == Some(422))
                        && (r.parsed.Frame? && !ValidType(Trim(r.parsed.typ)) ==> refusal == Some(422)))))
  {
    hide ValidType, Trim;
  }

  /** The relay of one planned store. */
  function RelayJob(frameId: Id, typ: string, body: Bytes, now: Time, item: PlanItem): Job {
    Job(frameId, item.relayId, item.storeId, typ, body, 0, now, now, None)
  }

  /** What a store's queue holds; nothing when there is no queue yet. */
  function Waiting(v: View, id: Id): multiset<Job> {
    if id in v then v[id].ready else multiset{}
  }

  /** The broker after the relays of plan were enqueued one by one; a store that is gone is skipped. */
  function Relayed(v: View, plan: seq<PlanItem>, stores: map<Id, Store>,
                   frameId: Id, typ: string, body: Bytes, now: Time): View
  {
    if plan == [] then v
    else
      var last := plan[|plan| - 1];
      var before := Relayed(v, plan[..|plan| - 1], stores, frameId, typ, body, now);
      if last.storeId !in stores then before
      else
        var d := stores[last.storeId];
        EnqueueView(before, RelayJob(frameId, typ, body, now, last), d.ordered, d.maxInFlight)
  }

  /** The relay ids of the items whose stores are there. */
  function RelayedIds(plan: seq<PlanItem>, stores: map<Id, Store>): (ids: seq<Id>)
    ensures (forall i :: 0 <= i < |plan| ==> plan[i].storeId in stores) ==>
      |ids| == |plan| && forall i :: 0 <= i < |plan| ==> ids[i] == plan[i].relayId
  {
    if plan == [] then []
    else
      var n := |plan| - 1;
      RelayedIds(plan[..n], stores) + if plan[n].storeId in stores then [plan[n].relayId] else []
  }

  lemma RelayedNone(v: View, plan: seq<PlanItem>, stores: map<Id, Store>,
                    frameId: Id, typ: string, body: Bytes, now: Time)
    requires plan == []
    ensures Relayed(v, plan, stores, frameId, typ, body, now) == v && RelayedIds(plan, stores) == []
  {
  }

  lemma RelayedNext(v: View, plan: seq<PlanItem>, stores: map<Id, Store>,
                    frameId: Id, typ: string, body: Bytes, now: Time, k: nat)
    requires k < |plan|
    ensures var id, before := plan[k].storeId, Relayed(v, plan[..k], stores, frameId, typ, body, now);
      Relayed(v, plan[..k + 1], stores, frameId, typ, body, now) ==
        if id !in stores then before
        else EnqueueView(before, RelayJob(frameId, typ, body, now, plan[k]), stores[id].ordered, stores[id].maxInFlight)
    ensures RelayedIds(plan[..k + 1], stores) ==
      RelayedIds(plan[..k], stores) + if plan[k].storeId in stores then [plan[k].relayId] else []
  {
    assert plan[..k + 1][..k] == plan[..k];
  }

  /** plan has one entry for every enabled store with a matching prefix, and no other. */
  ghost predicate PlanFor(plan: seq<PlanItem>, stores: map<Id, Store>, typ: string) {
    && (forall i :: 0 <= i < |plan| ==> plan[i].storeId in stores && stores[plan[i].storeId].Matches(typ))
    && (forall i, j :: 0 <= i < j < |plan| ==> plan[i].storeId != plan[j].storeId)
    && (forall id :: id in stores && stores[id].Matches(typ) ==> exists i :: 0 <= i < |plan| && plan[i].storeId == id)
  }

  lemma {:induction false} RelayedElsewhere(v: View, plan: seq<PlanItem>, stores: map<Id, Store>,
                                            frameId: Id, typ: string, body: Bytes, now: Time, id: Id)
    requires forall i :: 0 <= i < |plan| ==> plan[i].storeId != id
    ensures var r := Relayed(v, plan, stores, frameId, typ, body, now);
      (id in r <==> id in v) && (id in v ==> r[id] == v[id])
  {
    if plan != [] {
      RelayedElsewhere(v, plan[..|plan| - 1], stores, frameId, typ, body, now, id);
    }
  }

  /** Every store of the plan gets exactly one new job, its own. */
  lemma {:induction false} RelayedOnce(v: View, plan: seq<PlanItem>, stores: map<Id, Store>,
                                       frameId: Id, typ: string, body: Bytes, now: Time, i: nat)
    requires forall k :: 0 <= k < |plan| ==> plan[k].storeId in stores
    requires forall k, l :: 0 <= k < l < |plan| ==> plan[k].storeId != plan[l].storeId
    requires i < |plan|
    ensures var r := Relayed(v, plan, stores, frameId, typ, body, now);
      && Waiting(r, plan[i].storeId)
         == Waiting(v, plan[i].storeId) + multiset{RelayJob(frameId, typ, body, now, plan[i])}
      && RelayJob(frameId, typ, body, now, plan[i])
         == Job(frameId, plan[i].relayId, plan[i].storeId, typ, body, 0, now, now, None)
  {
    var n, last := |plan| - 1, plan[|plan| - 1];
    var before := Relayed(v, plan[..n], stores, frameId, typ, body, now);
    EnqueueAdds(before, RelayJob(frameId, typ, body, now, last), stores[last.storeId]);
    if i == n {
      RelayedElsewhere(v, plan[..n], stores, frameId, typ, body, now, last.storeId);
    } else {
      RelayedOnce(v, plan[..n], stores, frameId, typ, body, now, i);
      assert plan[..n][i] == plan[i];
    }
  }

  lemma EnqueueAdds(v: View, j: Job, d: Store)
    ensures var r := EnqueueView(v, j, d.ordered, d.maxInFlight);
      && Waiting(r, j.storeId) == Waiting(v, j.storeId) + multiset{j}
      && forall id :: id != j.storeId ==> Waiting(r, id) == Waiting(v, id)
  {
  }

  /** Fan-out: an accepted frame puts exactly one relay into the queue of every enabled store with
      a matching prefix and leaves every other queue alone. */
  lemma FanOutIsExact(v: View, plan: seq<PlanItem>, stores: map<Id, Store>,
                      frameId: Id, typ: string, body: Bytes, now: Time, id: Id)
    requires PlanFor(plan, stores, typ)
    ensures var r := Relayed(v, plan, stores, frameId, typ, body, now);
      if id in stores && stores[id].Matches(typ)
      then exists i :: 0 <= i < |plan| && plan[i].storeId == id
                       && Waiting(r, id) == Waiting(v, id)
                            + multiset{Job(frameId, plan[i].relayId, id, typ, body, 0, now, now, None)}
      else Waiting(r, id) == Waiting(v, id)
  {
    if id in stores && stores[id].Matches(typ) {
      var i :| 0 <= i < |plan| && plan[i].storeId == id;
      RelayedOnce(v, plan, stores, frameId, typ, body, now, i);
    } else {
      RelayedElsewhere(v, plan, stores, frameId, typ, body, now, id);
    }
  }

  /** The plan for the stores that match has one item each, with the generator's ids in order. */
  lemma PlanIsExact(matched: seq<Store>, stores: map<Id, Store>, typ: string, relayIds: nat -> Id)
    requires EachOnce(matched, stores, stores.Keys, typ) && forall id :: id in stores ==> stores[id].id == id
    ensures var plan := Planned(typ, matched, relayIds);
      && PlanFor(plan, stores, typ) && |RelayedIds(plan, stores)| == |plan|
      && forall i :: 0 <= i < |plan| ==> plan[i].relayId == RelayedIds(plan, stores)[i] == relayIds(i)
  {
    hide Planned, RelayedIds, Store.Matches;
    var plan := Planned(typ, matched, relayIds);
    PlannedAll(typ, matched, relayIds);
    forall id | id in stores && stores[id].Matches(typ)
      ensures exists i :: 0 <= i < |plan| && plan[i].storeId == id
    {
      var i :| 0 <= i < |matched| && matched[i] == stores[id];
      assert plan[i].storeId == id;
    }
  }

  /** The idempotency outcome an answer of Admit stands for. */
  function OutcomeOf(answer: Option<Reply>): Admission.Outcome {
    if answer.None? then Admission.Fresh
    else if answer.value.code == 200 then Admission.Replay(answer.value.frameId)
    else Admission.Conflict
  }

  class Pipeline {
    const window: Time
    const nonces: Admission.Book
    const idem: Admission.Store
    const stores: Registry
    const broker: Broker

    ghost predicate Valid()
      reads this, nonces, idem, stores, broker, broker.dests.Values, broker.heaps, broker.cells
    {
      && nonces.Valid() && idem.Valid() && stores.Valid() && broker.Valid()
      && nonces.window == if window <= 0 then 300 * SECOND else window
    }

    constructor (window: Time, nonces: Admission.Book, idem: Admission.Store, stores: Registry, broker: Broker)
      requires nonces.Valid() && idem.Valid() && stores.Valid() && broker.Valid()
      requires nonces.window == if window <= 0 then 300 * SECOND else window
      ensures Valid() && this.window == window
      ensures this.nonces == nonces && this.idem == idem && this.stores == stores && this.broker == broker
    {
      this.window, this.nonces, this.idem, this.stores, this.broker := window, nonces, idem, stores, broker;
    }

    /** Enqueues one relay per planned store. */
    method FanOut(frameId: Id, typ: string, body: Bytes, now: Time, relayIds: nat -> Id)
      returns (ids: seq<Id>, ghost plan: seq<PlanItem>)
      requires stores.Valid() && broker.Valid()
      modifies broker, broker.dests.Values, broker.heaps, broker.cells
      ensures broker.Valid() && fresh(broker.dests.Values - old(broker.dests.Values))
      ensures fresh(broker.heaps - old(broker.heaps)) && fresh(broker.cells - old(broker.cells))
      ensures PlanFor(plan, stores.items, typ) && |ids| == |plan|
      ensures forall i :: 0 <= i < |plan| ==> plan[i].relayId == ids[i] == relayIds(i)
      ensures broker.view == Relayed(old(broker.view), plan, stores.items, frameId, typ, body, now)
    {
      hide Relayed, RelayedIds, PlanFor, EachOnce, Planned, Broker.Valid;
      var matched := stores.Matching(typ);
      var items, dropped := PlanStores(typ, matched, relayIds);
      PlanIsExact(matched, stores.items, typ, relayIds);
      plan := items;
      ids := EnqueueAll(frameId, typ, body, now, items);
    }

    method EnqueueAll(frameId: Id, typ: string, body: Bytes, now: Time, items: seq<PlanItem>) returns (ids: seq<Id>)
      requires broker.Valid() && stores.Valid()
      modifies broker, broker.dests.Values, broker.heaps, broker.cells
      ensures broker.Valid() && fresh(broker.dests.Values - old(broker.dests.Values))
      ensures fresh(broker.heaps - old(broker.heaps)) && fresh(broker.cells - old(broker.cells))
      ensures ids == RelayedIds(items, stores.items)
      ensures broker.view == Relayed(old(broker.view), items, stores.items, frameId, typ, body, now)
    {
      hide Relayed, RelayedIds, Broker.Valid;
      ids := [];
      var ds := stores.items;
      ghost var v := broker.view;
      RelayedNone(v, items[..0], ds, frameId, typ, body, now);
      for k := 0 to |items|
        invariant broker.Valid() && fresh(broker.dests.Values - old(broker.dests.Values))
        invariant fresh(broker.heaps - old(broker.heaps)) && fresh(broker.cells - old(broker.cells))
        invariant ids == RelayedIds(items[..k], ds)
        invariant broker.view == Relayed(v, items[..k], ds, frameId, typ, body, now)
      {
        RelayedNext(v, items, ds, frameId, typ, body, now, k);
        if items[k].storeId !in ds {
          continue;
        }
        EnqueueOne(RelayJob(frameId, typ, body, now, items[k]), ds[items[k].storeId]);
        ids := ids + [items[k].relayId];
      }
      assert items[..|items|] == items;
    }

    method EnqueueOne(j: Job, d: Store)
      requires broker.Valid() && j.storeId == d.id
      modifies broker, broker.dests.Values, broker.heaps, broker.cells
      ensures broker.Valid() && fresh(broker.dests.Values - old(broker.dests.Values))
      ensures fresh(broker.heaps - old(broker.heaps)) && fresh(broker.cells - old(broker.cells))
      ensures broker.view == EnqueueView(old(broker.view), j, d.ordered, d.maxInFlight)
    {
      hide Broker.Valid;
      broker.Ensure(d.id, d.ordered, d.maxInFlight);
      broker.Enqueue(j, d.ordered, d.maxInFlight);
    }

    /** The tests that remember nothing. */
    method Screen(r: Request, now: Time) returns (refusal: Option<int>)
      ensures refusal == EarlyRefusal(r, window, now)
    {
      if !r.headersOk {
        return Some(400);
      }
      if !r.idemKeyOk {
        return Some(400);
      }
      if !r.secretsKnown {
        return Some(401);
      }
      if !r.nonceOk || !r.signatureWellFormed {
        return Some(401);
      }
      if !Admission.InWindow(now, window, r.timestamp) {
        return Some(400);
      }
      if !r.macMatches {
        return Some(401);
      }
      match r.parsed
      case SyntaxError =>
        return Some(400);
      case Unprocessable =>
        return Some(422);
      case Frame(t) =>
        var ok := ValidateType(t);
        if !ok {
          return Some(422);
        }
        return None;
    }

    /** The nonce book and then the idempotency store; None when the frame is to be fanned out. */
    method Admit(r: Request, at: Readings, newFrame: Id) returns (answer: Option<Reply>)
      requires nonces.Valid() && idem.Valid() && at.Ordered() && nonces.clock <= at.nonceGc && idem.clock <= at.idemGc
      modifies nonces, idem
      ensures nonces.Valid() && idem.Valid()
      ensures answer.Some? ==>
        answer.value == Reply(409, "", false, []) || answer.value == Reply(200, answer.value.frameId, true, [])
      ensures answer.Some? && answer.value.code == 200 ==>
        exists i :: 0 <= i < |old(idem.accepted)| && old(idem.accepted)[i].key == r.idemKey
          && old(idem.accepted)[i].bodyHash == r.bodyHash && at.idemNow < old(idem.accepted)[i].acceptedAt + idem.ttl
          && old(idem.accepted)[i].frameId == answer.value.frameId
      ensures Admission.Live(old(nonces.accepted), r.nonce, at.nonceCheck) ==>
        answer == Some(Refused(409)) && nonces.accepted == old(nonces.accepted) && idem.accepted == old(idem.accepted)
      ensures !Admission.Live(old(nonces.accepted), r.nonce, at.nonceCheck) ==>
        && nonces.accepted == old(nonces.accepted)
             + [Admission.Record(r.nonce, "", "", at.nonceStore, at.nonceStore + nonces.window)]
        && Admission.Answers(old(idem.accepted), r.idemKey, r.bodyHash, at.idemNow, OutcomeOf(answer))
        && (answer.Some? ==> answer.value.relayIds == [] && idem.accepted == old(idem.accepted))
      ensures answer.None? ==>
        idem.accepted == old(idem.accepted)
          + [Admission.Record(r.idemKey, r.bodyHash, newFrame, at.idemNow, at.idemNow + idem.ttl)]
    {
      hide Admission.Remembers, Admission.Spaced, Admission.Live;
      var isNew := nonces.CheckAndRemember(r.nonce, at.nonceGc, at.nonceCheck, at.nonceStore);
      if !isNew {
        return Some(Refused(409));
      }
      var o := idem.Remember(r.idemKey, r.bodyHash, newFrame, at.idemGc, at.idemNow);
      match o
      case Conflict =>
        return Some(Refused(409));
      case Replay(existing) =>
        return Some(Reply(200, existing, true, []));
      case Fresh =>
        return None;
    }

    /** newFrame and relayIds are the ids the generator hands out during this call. */
    method Handle(r: Request, at: Readings, newFrame: Id,
                  relayIds: nat -> Id) returns (reply: Reply, ghost plan: seq<PlanItem>)
      requires Valid() && at.Ordered() && nonces.clock <= at.nonceGc && idem.clock <= at.idemGc
      modifies nonces, idem, broker, broker.dests.Values, broker.heaps, broker.cells
      ensures Valid() && fresh(broker.dests.Values - old(broker.dests.Values))
      ensures fresh(broker.heaps - old(broker.heaps)) && fresh(broker.cells - old(broker.cells))
      // Past the tests before the nonce book: every one of them is passed, the MAC and the clock included.
      ensures reply.code == 202 || reply.code == 200 || reply.code == 409 ==>
        && r.headersOk && r.idemKeyOk && r.secretsKnown && r.nonceOk && r.signatureWellFormed && r.macMatches
        && r.parsed.Frame? && ValidType(Trim(r.parsed.typ))
        && var w := (if window <= 0 then 300 * SECOND else window) / SECOND;
        r.timestamp - w <= at.verify / SECOND <= r.timestamp + w
      // And the other codes, each for the first test that fails.
      ensures reply.code != 202 && reply.code != 200 && reply.code != 409 ==>
        var w := (if window <= 0 then 300 * SECOND else window) / SECOND;
        var skewed := at.verify / SECOND < r.timestamp - w || r.timestamp + w < at.verify / SECOND;
        reply.code ==
          if !r.headersOk || !r.idemKeyOk then 400
          else if !r.secretsKnown || !r.nonceOk || !r.signatureWellFormed then 401
          else if skewed then 400
          else if !r.macMatches then 401
          else if r.parsed.SyntaxError? then 400
          else 422
      ensures reply.code == 422 ==> r.parsed.Unprocessable? || (r.parsed.Frame? && !ValidType(Trim(r.parsed.typ)))
      ensures reply.replay <==> reply.code == 200
      // A replay names the frame first accepted under the key, with the same body, less than a ttl ago.
      ensures reply.code == 200 ==>
        exists i :: 0 <= i < |old(idem.accepted)| && old(idem.accepted)[i].key == r.idemKey
          && old(idem.accepted)[i].bodyHash == r.bodyHash && at.idemNow < old(idem.accepted)[i].acceptedAt + idem.ttl
          && old(idem.accepted)[i].frameId == reply.frameId
      ensures reply.code != 200 && reply.code != 202 ==> reply.frameId == "" && reply.relayIds == []
      // Refused before the nonce book: nothing is remembered.
      ensures EarlyRefusal(r, window, at.verify).Some? ==>
        reply == Refused(EarlyRefusal(r, window, at.verify).value)
        && nonces.accepted == old(nonces.accepted) && idem.accepted == old(idem.accepted)
        && broker.view == old(broker.view)
      // A nonce still in its window is refused, any other is remembered.
      ensures EarlyRefusal(r, window, at.verify).None? ==>
        Admission.Live(old(nonces.accepted), r.nonce, at.nonceCheck) ==>
        reply == Refused(409)
        && nonces.accepted == old(nonces.accepted) && idem.accepted == old(idem.accepted)
        && broker.view == old(broker.view)
      ensures EarlyRefusal(r, window, at.verify).None? ==>
        !Admission.Live(old(nonces.accepted), r.nonce, at.nonceCheck) ==>
        && nonces.accepted == old(nonces.accepted)
             + [Admission.Record(r.nonce, "", "", at.nonceStore, at.nonceStore + nonces.window)]
        && (reply.code == 409 || reply.code == 200 || reply.code == 202)
        // The idempotency answer is the one the whole history of acceptances gives.
        && Admission.Answers(old(idem.accepted), r.idemKey, r.bodyHash, at.idemNow,
             OutcomeOf(if reply.code == 202 then None else Some(reply)))
        && (reply.code != 202 ==>
              reply.relayIds == [] && idem.accepted == old(idem.accepted) && broker.view == old(broker.view))
      // Only a 202 is recorded and fanned out.
      ensures reply.code == 202 ==>
        && EarlyRefusal(r, window, at.verify).None? && !Admission.Live(old(nonces.accepted), r.nonce, at.nonceCheck)
        && r.parsed.Frame? && ValidType(Trim(r.parsed.typ)) && reply.frameId == newFrame && |reply.relayIds| == |plan|
        && (forall i :: 0 <= i < |plan| ==> plan[i].relayId == reply.relayIds[i] == relayIds(i))
        && idem.accepted == old(idem.accepted)
             + [Admission.Record(r.idemKey, r.bodyHash, newFrame, at.idemNow, at.idemNow + idem.ttl)]
        && PlanFor(plan, stores.items, r.parsed.typ)
        && broker.view == Relayed(old(broker.view), plan, stores.items, newFrame, r.parsed.typ, r.body, at.now)
    {
      hide Broker.Valid, Relayed, PlanFor, Admission.Live, Admission.Answers, ValidType, Trim, Admission.InWindow;
      RefusalIs(r, window, at.verify);
      plan := [];
      var refusal := Screen(r, at.verify);
      if refusal.Some? {
        return Refused(refusal.value), [];
      }
      var answer := Admit(r, at, newFrame);
      if answer.Some? {
        return answer.value, [];
      }
      var ids;
      ids, plan := FanOut(newFrame, r.parsed.typ, r.body, at.now, relayIds);
      reply := Reply(202, newFrame, false, ids);
    }
  }
}
