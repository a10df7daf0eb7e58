/** Admission control: the clock window of internal/sign, the nonce book of internal/nonce and the
    idempotency store of internal/idempotency, each against the full history of what it accepted. */
module Admission {
  import opened Common
  import opened Jobs

  // ---------- Full histories ----------

  datatype Record = Record(key: string, bodyHash: string, frameId: Id, acceptedAt: Time, expiresAt: Time)

  /** The acceptance number i of h is one of key and has not expired at now. */
  predicate LiveAt(h: seq<Record>, key: string, now: Time, i: nat) {
    i < |h| && h[i].key == key && now < h[i].expiresAt
  }

  ghost predicate Live(h: seq<Record>, key: string, now: Time) {
    exists i: nat :: LiveAt(h, key, now, i)
  }

  /** Acceptances of one key are never less than ttl apart. */
  ghost predicate Spaced(h: seq<Record>, ttl: Time) {
    forall i, j :: 0 <= i < j < |h| && h[i].key == h[j].key ==> h[i].acceptedAt + ttl <= h[j].acceptedAt
  }

  /** The map knows exactly as much about live keys as the whole history does. */
  ghost predicate Remembers(m: map<string, Record>, h: seq<Record>, ttl: Time, clock: Time) {
    && (forall k :: k in m ==> m[k].key == k && m[k] in h)
    && (forall i :: 0 <= i < |h| ==>
          && h[i].acceptedAt <= clock && h[i].expiresAt == h[i].acceptedAt + ttl
          && (clock < h[i].expiresAt ==> h[i].key in m && m[h[i].key] == h[i]))
  }

  /** gcLocked: what is left of m at instant now. */
  function Collected(m: map<string, Record>, now: Time): map<string, Record> {
    map k | k in m && now < m[k].expiresAt :: m[k]
  }

  method Collect(m: map<string, Record>, now: Time) returns (r: map<string, Record>)
    ensures r == Collected(m, now)
    ensures forall k :: k in r <==> k in m && now < m[k].expiresAt
    ensures forall k :: k in r ==> r[k] == m[k]
  {
    r := m;
    var todo := m.Keys;
    while todo != {}
      invariant todo <= m.Keys
      invariant r == map k | k in m && (k in todo || now < m[k].expiresAt) :: m[k]
      decreases todo
    {
      var k :| k in todo;
      todo := todo - {k};
      if m[k].expiresAt <= now {
        r := r - {k};
      }
    }
  }

  lemma CollectRemembers(m: map<string, Record>, h: seq<Record>, ttl: Time, clock: Time, now: Time)
    requires Remembers(m, h, ttl, clock) && clock <= now
    ensures Remembers(Collected(m, now), h, ttl, now)
  {
  }

  /** After a collection, looking a key up in the map is asking the history. */
  lemma LookupIsHistory(m: map<string, Record>, h: seq<Record>, ttl: Time, clock: Time, key: string, now: Time)
    requires Remembers(m, h, ttl, clock) && clock <= now
    ensures key in m && now < m[key].expiresAt <==> Live(h, key, now)
    ensures forall i: nat :: LiveAt(h, key, now, i) ==> key in m && m[key] == h[i]
  {
    if key in m && now < m[key].expiresAt {
      var i: nat :| i < |h| && h[i] == m[key];
      assert LiveAt(h, key, now, i);
    }
  }

  lemma LiveMeans(m: map<string, Record>, h: seq<Record>, ttl: Time, clock: Time, key: string, now: Time)
    requires Remembers(m, h, ttl, clock)
    ensures !Live(h, key, now) <==> forall i :: 0 <= i < |h| && h[i].key == key ==> h[i].acceptedAt + ttl <= now
  {
    if !Live(h, key, now) {
      forall i: nat | i < |h| && h[i].key == key
        ensures h[i].acceptedAt + ttl <= now
      {
        assert !LiveAt(h, key, now, i);
      }
    }
  }

  lemma AcceptRemembers(m: map<string, Record>, h: seq<Record>, ttl: Time, clock: Time, r: Record)
    requires ttl > 0 && Remembers(m, h, ttl, clock) && Spaced(h, ttl) && clock <= r.acceptedAt
    requires r.expiresAt == r.acceptedAt + ttl && !Live(h, r.key, clock)
    ensures Remembers(m[r.key := r], h + [r], ttl, r.acceptedAt) && Spaced(h + [r], ttl)
  {
    var g := h + [r];
    forall i: nat | i < |h| && h[i].key == r.key
      ensures h[i].acceptedAt + ttl <= r.acceptedAt
    {
      assert !LiveAt(h, r.key, clock, i);
    }
    assert g[|h|] == r;
  }

  // ---------- The idempotency store ----------

  datatype Outcome = Fresh | Replay(frameId: Id) | Conflict

  /** The answer the un-collected history gives. */
  ghost predicate Answers(h: seq<Record>, key: string, bodyHash: string, now: Time, o: Outcome) {
    match o
    case Fresh => !Live(h, key, now)
    case Replay(f) => exists i: nat :: LiveAt(h, key, now, i) && h[i].bodyHash == bodyHash && h[i].frameId == f
    case Conflict => exists i: nat :: LiveAt(h, key, now, i) && h[i].bodyHash != bodyHash
  }

  /** What the answer comes to: an acceptance of the key less than a ttl ago decides, and without one
      the key is fresh. */
  lemma AnswerMeans(m: map<string, Record>, h: seq<Record>, ttl: Time, clock: Time,
                    key: string, bodyHash: string, now: Time, o: Outcome)
    requires Remembers(m, h, ttl, clock) && Spaced(h, ttl) && clock <= now && Answers(h, key, bodyHash, now, o)
    ensures forall i :: 0 <= i < |h| && h[i].key == key && now < h[i].acceptedAt + ttl ==>
      o == if h[i].bodyHash == bodyHash then Replay(h[i].frameId) else Conflict
    ensures (forall i :: 0 <= i < |h| && h[i].key == key ==> h[i].acceptedAt + ttl <= now) ==> o == Fresh
  {
    forall i: nat, j: nat | LiveAt(h, key, now, i) && LiveAt(h, key, now, j)
      ensures i == j
    {
    }
    forall i: nat | i < |h| && h[i].key == key && now < h[i].acceptedAt + ttl
      ensures LiveAt(h, key, now, i)
    {
    }
  }

  class Store {
    const ttl: Time
    var byKey: map<string, Record>
    ghost var accepted: seq<Record>  // every acceptance there has ever been
    ghost var clock: Time            // the latest clock reading

    ghost predicate Valid()
      reads this
    {
      ttl > 0 && Remembers(byKey, accepted, ttl, clock) && Spaced(accepted, ttl)
    }

    constructor (ttl: Time, ghost now: Time)
      ensures Valid() && accepted == [] && clock == now && this.ttl == if ttl <= 0 then 24 * 3600 * SECOND else ttl
    {
      var t := ttl;
      if t <= 0 {
        t := 24 * 3600 * SECOND;
      }
      this.ttl, byKey, accepted, clock := t, map[], [], now;
    }

    /** gcAt and now are the two clock readings of a call. */
    method Remember(key: string, bodyHash: string, frameId: Id, gcAt: Time, now: Time) returns (o: Outcome)
      requires Valid() && clock <= gcAt <= now
      modifies this
      ensures Valid() && clock == now && Answers(old(accepted), key, bodyHash, now, o)
      ensures accepted ==
        if o == Fresh then old(accepted) + [Record(key, bodyHash, frameId, now, now + ttl)] else old(accepted)
      // An acceptance of the key less than a ttl ago decides; without one the key is fresh.
      ensures forall i :: 0 <= i < |old(accepted)| && old(accepted)[i].key == key
                          && now < old(accepted)[i].acceptedAt + ttl ==>
        o == if old(accepted)[i].bodyHash == bodyHash then Replay(old(accepted)[i].frameId) else Conflict
      ensures (forall i :: 0 <= i < |old(accepted)| && old(accepted)[i].key == key ==>
                 old(accepted)[i].acceptedAt + ttl <= now) ==> o == Fresh
    {
      hide Answers, Remembers, Spaced;
      ghost var m, h, c := byKey, accepted, clock;
      o := Recall(key, bodyHash, frameId, gcAt, now);
      AnswerMeans(m, h, ttl, c, key, bodyHash, now, o);
    }

    method Recall(key: string, bodyHash: string, frameId: Id, gcAt: Time, now: Time) returns (o: Outcome)
      requires Valid() && clock <= gcAt <= now
      modifies this
      ensures Valid() && clock == now && Answers(old(accepted), key, bodyHash, now, o)
      ensures accepted ==
        if o == Fresh then old(accepted) + [Record(key, bodyHash, frameId, now, now + ttl)] else old(accepted)
    {
      CollectRemembers(byKey, accepted, ttl, clock, gcAt);
      byKey := Collect(byKey, gcAt);
      CollectRemembers(byKey, accepted, ttl, gcAt, now);
      LookupIsHistory(byKey, accepted, ttl, gcAt, key, now);
      clock := now;
      if key in byKey && now < byKey[key].expiresAt {
        var rec := byKey[key];
        ghost var i: nat :| i < |accepted| && accepted[i] == rec;
        assert LiveAt(accepted, key, now, i);
        if rec.bodyHash != bodyHash {
          return Conflict;
        }
        return Replay(rec.frameId);
      }
      var r := Record(key, bodyHash, frameId, now, now + ttl);
      assert Remembers(byKey, accepted, ttl, now);
      AcceptRemembers(byKey, accepted, ttl, now, r);
      byKey := byKey[key := r];
      accepted := accepted + [r];
      return Fresh;
    }
  }

  /** The history determines the answer: no two outcomes fit it. */
  lemma AnswerIsUnique(h: seq<Record>, ttl: Time, key: string, bodyHash: string, now: Time, o1: Outcome, o2: Outcome)
    requires Spaced(h, ttl)
    requires (forall i :: 0 <= i < |h| ==> h[i].acceptedAt <= now && h[i].expiresAt == h[i].acceptedAt + ttl)
    requires Answers(h, key, bodyHash, now, o1) && Answers(h, key, bodyHash, now, o2)
    ensures o1 == o2
  {
    forall i: nat, j: nat | LiveAt(h, key, now, i) && LiveAt(h, key, now, j)
      ensures i == j
    {
    }
  }

  // ---------- The nonce book ----------

  class Book {
    const window: Time
    var entries: map<string, Record>
    ghost var accepted: seq<Record>
    ghost var clock: Time

    ghost predicate Valid()
      reads this
    {
      window > 0 && Remembers(entries, accepted, window, clock) && Spaced(accepted, window)
    }

    constructor (window: Time, ghost now: Time)
      ensures Valid() && accepted == [] && clock == now && this.window == if window <= 0 then 300 * SECOND else window
    {
      var w := window;
      if w <= 0 {
        w := 300 * SECOND;
      }
      this.window, entries, accepted, clock := w, map[], [], now;
    }

    /** gcAt, checkAt and now are the three clock readings of a call; a nonce's record carries no
        hash and no frame. */
    method CheckAndRemember(nonce: string, gcAt: Time, checkAt: Time, now: Time) returns (ok: bool)
      requires Valid() && clock <= gcAt <= checkAt <= now
      modifies this
      ensures Valid() && clock <= now && (ok <==> !Live(old(accepted), nonce, checkAt))
      ensures accepted == if ok then old(accepted) + [Record(nonce, "", "", now, now + window)] else old(accepted)
      ensures ok <==> forall i :: 0 <= i < |old(accepted)| && old(accepted)[i].key == nonce ==>
        old(accepted)[i].acceptedAt + window <= checkAt
    {
      hide Live, Remembers, Spaced;
      LiveMeans(entries, accepted, window, clock, nonce, checkAt);
      ok := Enter(nonce, gcAt, checkAt, now);
    }

    method Enter(nonce: string, gcAt: Time, checkAt: Time, now: Time) returns (ok: bool)
      requires Valid() && clock <= gcAt <= checkAt <= now
      modifies this
      ensures Valid() && clock <= now && (ok <==> !Live(old(accepted), nonce, checkAt))
      ensures accepted == if ok then old(accepted) + [Record(nonce, "", "", now, now + window)] else old(accepted)
    {
      CollectRemembers(entries, accepted, window, clock, gcAt);
      entries := Collect(entries, gcAt);
      CollectRemembers(entries, accepted, window, gcAt, checkAt);
      LookupIsHistory(entries, accepted, window, gcAt, nonce, checkAt);
      clock := checkAt;
      if nonce in entries {
        if checkAt < entries[nonce].expiresAt {
          return false;
        }
      }
      var r := Record(nonce, "", "", now, now + window);
      assert Remembers(entries, accepted, window, checkAt);
      AcceptRemembers(entries, accepted, window, checkAt, r);
      entries := entries[nonce := r];
      accepted := accepted + [r];
      clock := now;
      return true;
    }
  }

  // ---------- The clock window ----------

  /** time.Time.Unix. */
  function Unix(t: Time): int {
    t / SECOND
  }

  /** int64(window.Seconds()), the window defaulted as in sign.Verify. */
  function WindowSeconds(window: Time): int {
    (if window <= 0 then 300 * SECOND else window) / SECOND
  }

  /** The skew test of sign.Verify. */
  predicate InWindow(now: Time, window: Time, timestamp: int) {
    var delta := Unix(now) - timestamp;
    (if delta < 0 then -delta else delta) <= WindowSeconds(window)
  }

  /** The test is two-sided: the request's second is at most the window's whole seconds from the clock's,
      before it or after it. */
  lemma InWindowIs(now: Time, window: Time, timestamp: int)
    ensures var w := (if window <= 0 then 300 * SECOND else window) / SECOND;
      InWindow(now, window, timestamp) <==> timestamp - w <= now / SECOND <= timestamp + w
  {
  }

  /** A request accepted at instant `first` passes both the skew test and the nonce book at `later`. */
  predicate PassesAgain(first: Time, later: Time, window: Time, timestamp: int) {
    first + window <= later && InWindow(later, window, timestamp)
  }

  lemma UnixShift(t: Time, seconds: int)
    ensures Unix(t + seconds * SECOND) == Unix(t) + seconds
  {
  }

  /** With a whole-second window, a request can pass both tests a second time exactly when its
      timestamp is not below the Unix second of its first acceptance. */
  lemma SecondPassIff(first: Time, seconds: int, timestamp: int)
    requires seconds > 0 && InWindow(first, seconds * SECOND, timestamp)
    ensures (exists later :: PassesAgain(first, later, seconds * SECOND, timestamp)) <==> Unix(first) <= timestamp
  {
    var w := seconds * SECOND;
    UnixShift(first, seconds);
    UnixShift(0, seconds);
    if Unix(first) <= timestamp {
      assert PassesAgain(first, first + w, w, timestamp);
    }
  }

  /** A book with history h would accept the key again at instant `later`, and the skew test too. */
  ghost predicate Readmits(h: seq<Record>, window: Time, key: string, timestamp: int, later: Time) {
    !Live(h, key, later) && InWindow(later, window, timestamp)
  }

  /** The last acceptance of a key decides alone whether the history still knows the key. */
  lemma LastDecides(h: seq<Record>, window: Time, i: nat, later: Time)
    requires window > 0 && Spaced(h, window) && i < |h|
    requires forall k :: 0 <= k < |h| ==> h[k].expiresAt == h[k].acceptedAt + window
    requires forall k :: i < k < |h| ==> h[k].key != h[i].key
    ensures !Live(h, h[i].key, later) <==> h[i].acceptedAt + window <= later
  {
    if later < h[i].expiresAt {
      assert LiveAt(h, h[i].key, later, i);
    }
  }

  /** Of the book itself: just after it has accepted a request, there is a later instant at which the
      book and the skew test both accept that request again if and only if the request is not
      stamped below the second of this acceptance. */
  lemma BookReadmitsIff(b: Book, key: string, seconds: int, timestamp: int)
    requires b.Valid() && seconds > 0 && b.window == seconds * SECOND
    requires |b.accepted| > 0 && b.accepted[|b.accepted| - 1].key == key
    requires b.accepted[|b.accepted| - 1].acceptedAt == b.clock
    requires InWindow(b.clock, b.window, timestamp)
    ensures Unix(b.clock) <= timestamp <==>
      exists later :: later >= b.clock && Readmits(b.accepted, b.window, key, timestamp, later)
  {
    var i := |b.accepted| - 1;
    SecondPassIff(b.clock, seconds, timestamp);
    if Unix(b.clock) <= timestamp {
      var later :| PassesAgain(b.clock, later, b.window, timestamp);
      LastDecides(b.accepted, b.window, i, later);
      assert Readmits(b.accepted, b.window, key, timestamp, later);
    }
    if later :| later >= b.clock && Readmits(b.accepted, b.window, key, timestamp, later) {
      LastDecides(b.accepted, b.window, i, later);
      assert PassesAgain(b.clock, later, b.window, timestamp);
    }
  }

  /** So over the history of a book, with one clock reading per request, a (timestamp, nonce) pair
      stamped below the second of its first acceptance is not accepted again. */
  lemma NeverAcceptedAgain(h: seq<Record>, seconds: int, timestamp: int, i: nat, j: nat)
    requires seconds > 0 && Spaced(h, seconds * SECOND) && i < j < |h| && h[i].key == h[j].key
    requires InWindow(h[i].acceptedAt, seconds * SECOND, timestamp) && timestamp < Unix(h[i].acceptedAt)
    ensures !InWindow(h[j].acceptedAt, seconds * SECOND, timestamp)
  {
    SecondPassIff(h[i].acceptedAt, seconds, timestamp);
    assert !PassesAgain(h[i].acceptedAt, h[j].acceptedAt, seconds * SECOND, timestamp);
  }
}
