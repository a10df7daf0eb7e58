/** The bounded lists: the dead-letter queue of internal/dlq and the attempt log of internal/journal. */
module Lists {
  import opened Common
  import opened Jobs

  function Ids(items: seq<DeadItem>): (s: seq<Id>)
    ensures |s| == |items|
    ensures forall i :: 0 <= i < |s| ==> s[i] == items[i].relayId
  {
    seq(|items|, i requires 0 <= i < |items| => items[i].relayId)
  }

  function DeadIds(items: seq<DeadItem>): multiset<Id> {
    multiset(Ids(items))
  }

  /** The items a push of `it` drops from the front. */
  function Dropped(items: seq<DeadItem>, it: DeadItem, cap: nat): seq<DeadItem> {
    if |items| + 1 > cap then (items + [it])[..|items| + 1 - cap] else []
  }

  /** The position a search from the back stops at, None when the id is not there. */
  function LastAt(items: seq<DeadItem>, id: Id): (r: Option<nat>)
    ensures r.Some? ==> r.value < |items| && items[r.value].relayId == id
                        && forall i :: r.value < i < |items| ==> items[i].relayId != id
    ensures r.None? ==> forall i :: 0 <= i < |items| ==> items[i].relayId != id
  {
    if items == [] then None
    else if items[|items| - 1].relayId == id then Some(|items| - 1)
    else LastAt(items[..|items| - 1], id)
  }

  /** The position a search from the front stops at. */
  function FirstAt(items: seq<DeadItem>, id: Id): (r: Option<nat>)
    ensures r.Some? ==> r.value < |items| && items[r.value].relayId == id
                        && forall i :: 0 <= i < r.value ==> items[i].relayId != id
    ensures r.None? ==> forall i :: 0 <= i < |items| ==> items[i].relayId != id
  {
    if items == [] then None
    else if items[0].relayId == id then Some(0)
    else match FirstAt(items[1..], id)
      case None => None
      case Some(i) =>
        assert items[1..][i] == items[i + 1];
        Some(i + 1)
  }

  function Without(items: seq<DeadItem>, id: Id): seq<DeadItem> {
    match FirstAt(items, id)
    case None => items
    case Some(i) => items[..i] + items[i + 1..]
  }

  /** Entry i is one of the relay, and none after it is. */
  ghost predicate IsLastOf(entries: seq<Entry>, id: Id, i: int) {
    0 <= i < |entries| && entries[i].relayId == id && forall k :: i < k < |entries| ==> entries[k].relayId != id
  }

  /** The last entry of a relay in the journal. */
  function LastEntry(entries: seq<Entry>, id: Id): (r: Option<Entry>)
    ensures r.Some? ==> exists i :: IsLastOf(entries, id, i) && entries[i] == r.value
    ensures r.None? ==> forall i :: 0 <= i < |entries| ==> entries[i].relayId != id
  {
    if entries == [] then None
    else if entries[|entries| - 1].relayId == id then
      assert IsLastOf(entries, id, |entries| - 1);
      Some(entries[|entries| - 1])
    else
      var before := entries[..|entries| - 1];
      assert forall i :: IsLastOf(before, id, i) ==> IsLastOf(entries, id, i) && entries[i] == before[i];
      LastEntry(before, id)
  }

  lemma DeadIdsConcat(a: seq<DeadItem>, b: seq<DeadItem>)
    ensures DeadIds(a + b) == DeadIds(a) + DeadIds(b)
  {
    assert Ids(a + b) == Ids(a) + Ids(b);
  }

  /** A push loses nothing: what was there and what is pushed is what is kept and what is dropped. */
  lemma PushBalance(items: seq<DeadItem>, it: DeadItem, cap: nat)
    ensures DeadIds(items) + multiset{it.relayId} ==
      DeadIds(LastN(items + [it], cap)) + DeadIds(Dropped(items, it, cap))
  {
    var all := items + [it];
    DeadIdsConcat(items, [it]);
    assert Ids([it]) == [it.relayId];
    if |all| > cap {
      DeadIdsConcat(all[..|all| - cap], all[|all| - cap..]);
      assert all == all[..|all| - cap] + all[|all| - cap..];
    }
  }

  lemma RemoveBalance(items: seq<DeadItem>, id: Id)
    requires FirstAt(items, id).Some?
    ensures DeadIds(items) == DeadIds(Without(items, id)) + multiset{id}
  {
    hide FirstAt;
    var i := FirstAt(items, id).value;
    assert items == items[..i] + [items[i]] + items[i + 1..];
    CutOut(items[..i], items[i], items[i + 1..]);
  }

  lemma CutOut(a: seq<DeadItem>, x: DeadItem, b: seq<DeadItem>)
    ensures DeadIds(a + [x] + b) == DeadIds(a + b) + multiset{x.relayId}
  {
    DeadIdsConcat(a + [x], b);
    DeadIdsConcat(a, [x]);
    DeadIdsConcat(a, b);
    assert Ids([x]) == [x.relayId];
  }

  lemma TwiceCounted<T>(s: seq<T>, i: nat, k: nat)
    requires i < k < |s| && s[i] == s[k]
    ensures multiset(s)[s[i]] >= 2
  {
    assert s == s[..k] + s[k..];
    assert s[..k][i] == s[i] && s[k..][0] == s[k];
    assert s[i] in multiset(s[..k]) && s[i] in multiset(s[k..]);
  }

  /** When no relay is dead twice, the search from the back (Get) and the search from the front
      (Remove) stop at the same item. */
  lemma GetIsRemove(items: seq<DeadItem>, id: Id)
    requires DeadIds(items)[id] <= 1
    ensures LastAt(items, id) == FirstAt(items, id)
  {
    if LastAt(items, id).Some? {
      var k, i := LastAt(items, id).value, FirstAt(items, id).value;
      if i != k {
        TwiceCounted(Ids(items), Min(i, k), Max(i, k));
      }
    }
  }

  class DeadQueue {
    const cap: nat
    var items: seq<DeadItem>

    constructor (cap: int)
      ensures items == [] && this.cap == if cap < 20 then 100 else cap
    {
      this.cap := if cap < 20 then 100 else cap;
      items := [];
    }

    method Push(it: DeadItem)
      modifies this
      ensures items == LastN(old(items) + [it], cap)
    {
      items := items + [it];
      if |items| > cap {
        items := items[|items| - cap..];
      }
    }

    method Get(id: Id) returns (r: Option<DeadItem>)
      ensures r == match LastAt(items, id) case None => None case Some(i) => Some(items[i])
      ensures r == None <==> forall i :: 0 <= i < |items| ==> items[i].relayId != id
      ensures r.Some? ==> r.value.relayId == id
      ensures r.Some? ==>
        exists i :: 0 <= i < |items| && items[i] == r.value && forall k :: i < k < |items| ==> items[k].relayId != id
    {
      var i := |items|;
      assert items[..i] == items;
      while i > 0
        invariant 0 <= i <= |items| && LastAt(items, id) == LastAt(items[..i], id)
      {
        assert items[..i][..i - 1] == items[..i - 1];
        i := i - 1;
        if items[i].relayId == id {
          return Some(items[i]);
        }
      }
      return None;
    }

    method Remove(id: Id) returns (r: Option<DeadItem>)
      modifies this
      ensures items == Without(old(items), id)
      ensures r == match FirstAt(old(items), id) case None => None case Some(i) => Some(old(items)[i])
      ensures r == None ==> items == old(items) && forall i :: 0 <= i < |items| ==> items[i].relayId != id
      ensures r.Some? ==> r.value.relayId == id
      ensures r.Some? ==>
        exists i :: 0 <= i < |old(items)| && old(items)[i] == r.value &&
          items == old(items)[..i] + old(items)[i + 1..] && forall k :: 0 <= k < i ==> old(items)[k].relayId != id
    {
      for i := 0 to |items|
        invariant items == old(items) && forall k :: 0 <= k < i ==> items[k].relayId != id
      {
        if items[i].relayId == id {
          r := Some(items[i]);
          items := items[..i] + items[i + 1..];
          return;
        }
      }
      return None;
    }
  }

  class Log {
    const cap: nat
    var entries: seq<Entry>

    constructor (cap: int)
      ensures entries == [] && this.cap == if cap < 50 then 200 else cap
    {
      this.cap := if cap < 50 then 200 else cap;
      entries := [];
    }

    method Append(e: Entry)
      modifies this
      ensures entries == LastN(old(entries) + [e], cap)
    {
      entries := entries + [e];
      if |entries| > cap {
        entries := entries[|entries| - cap..];
      }
    }

    method Get(id: Id) returns (r: Option<Entry>)
      ensures r == LastEntry(entries, id)
      ensures r == None <==> forall i :: 0 <= i < |entries| ==> entries[i].relayId != id
      ensures r.Some? ==> r.value.relayId == id
      ensures r.Some? ==>
        exists i :: 0 <= i < |entries| && entries[i] == r.value &&
          forall k :: i < k < |entries| ==> entries[k].relayId != id
    {
      var i := |entries|;
      assert entries[..i] == entries;
      while i > 0
        invariant 0 <= i <= |entries| && LastEntry(entries, id) == LastEntry(entries[..i], id)
      {
        assert entries[..i][..i - 1] == entries[..i - 1];
        i := i - 1;
        if entries[i].relayId == id {
          return Some(entries[i]);
        }
      }
      return None;
    }
  }
}
