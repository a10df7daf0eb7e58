/** Payload lineage: what travels under a frame id is what was accepted under it, and every relay
    descends from one minted at ingest. */
module Lineage {
  import opened Common
  import opened Jobs
  import opened Routing
  import opened Delivery
  import B = Brokers
  import C = Breakers
  import R = Buckets
  import P = Backoff
  import L = Lists
  import A = Accounts
  import K = Ledger

  /** What identifies a relay and its payload, on a job, a dead letter or a journal row alike. */
  datatype Tag = Tag(frameId: Id, relayId: Id, storeId: Id, typ: string, body: Bytes, replayOf: Option<Id>)

  function JobTag(j: Job): Tag {
    Tag(j.frameId, j.relayId, j.storeId, j.typ, j.body, j.replayOf)
  }

  function DeadTag(it: DeadItem): Tag {
    Tag(it.frameId, it.relayId, it.storeId, it.typ, it.body, it.replayOf)
  }

  function EntryTag(e: Entry): Tag {
    Tag(e.frameId, e.relayId, e.storeId, e.typ, e.body, e.replayOf)
  }

  /** The tag is that of a minted relay and carries the payload its frame was accepted with. */
  ghost predicate Faithful(h: History, g: Tag) {
    && g.relayId in h.births && g.frameId in h.accepted
    && h.births[g.relayId].frameId == g.frameId && h.births[g.relayId].storeId == g.storeId
    && h.births[g.relayId].parent == g.replayOf
    && h.accepted[g.frameId] == Payload(g.typ, g.body)
  }

  /** Relays replay earlier relays of the same frame and store. */
  ghost predicate WellBorn(h: History) {
    && (forall f :: f in h.accepted ==> |h.accepted[f].body| > 0)
    && (forall r :: r in h.births ==> h.births[r].frameId in h.accepted && h.births[r].rank < |h.births|)
    && (forall r :: r in h.births && h.births[r].parent.Some? ==> ParentOk(h, r))
  }

  ghost predicate ParentOk(h: History, r: Id)
    requires r in h.births && h.births[r].parent.Some?
  {
    var b, p := h.births[r], h.births[r].parent.value;
    p in h.births && h.births[p].rank < b.rank && h.births[p].frameId == b.frameId && h.births[p].storeId == b.storeId
  }

  ghost predicate ReadyFaithful(h: History, v: B.View) {
    forall id, j :: id in v && j in v[id].ready ==> Faithful(h, JobTag(j))
  }

  ghost predicate HandsFaithful(h: History, ws: seq<Phase>) {
    forall w :: 0 <= w < |ws| && !ws[w].Idle? && !ws[w].Finished? ==> Faithful(h, JobTag(ws[w].job))
  }

  ghost predicate DeadFaithful(h: History, dead: seq<DeadItem>) {
    forall i :: 0 <= i < |dead| ==> Faithful(h, DeadTag(dead[i]))
  }

  ghost predicate RowsFaithful(h: History, rows: seq<Entry>) {
    forall i :: 0 <= i < |rows| ==> Faithful(h, EntryTag(rows[i]))
  }

  ghost predicate Traced(st: Sys) {
    && WellBorn(st.hist) && ReadyFaithful(st.hist, st.broker) && HandsFaithful(st.hist, st.workers)
    && DeadFaithful(st.hist, st.dead) && RowsFaithful(st.hist, st.journal)
  }

  // ---------- Steps of a worker ----------

  /** Worker w holds a job of the same tag as before, or what it has leased, or nothing; nobody else has moved. */
  ghost predicate Rehanded(st: Sys, t: Sys, w: nat, s: WorkerStep)
    requires w < |st.workers|
  {
    var p := st.workers[w];
    && |t.workers| == |st.workers| && (forall v :: 0 <= v < |st.workers| && v != w ==> t.workers[v] == st.workers[v])
    && (s.Lease? ==> t.workers[w] == Leased(s.job))
    && (!s.Lease? && !t.workers[w].Idle? && !t.workers[w].Finished? ==>
          !p.Idle? && !p.Finished? && JobTag(t.workers[w].job) == JobTag(p.job))
  }

  lemma WorkKeepsTag(c: Config, st: Sys, w: nat, s: WorkerStep)
    requires w < |st.workers| && WorkerEnabled(c, st, st.workers[w], s)
    ensures Rehanded(st, ApplyWork(c, st, w, s), w, s)
  {
    hide Rehanded, ApplyWork;
    if s.Allow? || s.Take? || s.Tell? {
      GateKeepsTag(c, st, w, s);
    } else {
      QueueKeepsTag(c, st, w, s);
    }
  }

  lemma GateKeepsTag(c: Config, st: Sys, w: nat, s: WorkerStep)
    requires w < |st.workers| && WorkerEnabled(c, st, st.workers[w], s) && (s.Allow? || s.Take? || s.Tell?)
    ensures Rehanded(st, ApplyWork(c, st, w, s), w, s)
  {
    hide C.AllowOf, C.FailureOf, R.TakeOf, Ensured;
  }

  lemma QueueKeepsTag(c: Config, st: Sys, w: nat, s: WorkerStep)
    requires w < |st.workers| && WorkerEnabled(c, st, st.workers[w], s) && !s.Allow? && !s.Take? && !s.Tell?
    ensures Rehanded(st, ApplyWork(c, st, w, s), w, s)
  {
    hide Enqueued, LastN, L.DeadIds, P.Delay, B.LeaseView, B.ReleaseView;
  }

  lemma BuriedFaithful(c: Config, st: Sys, j: Job, reason: Reason, at: Time)
    requires DeadFaithful(st.hist, st.dead) && Faithful(st.hist, JobTag(j))
    ensures DeadFaithful(st.hist, Buried(c, st, j, reason, at).dead)
  {
    hide Faithful;
    assert DeadTag(DeadFromJob(j, reason, at)) == JobTag(j);
  }

  lemma WorkDead(c: Config, st: Sys, w: nat, s: WorkerStep)
    requires w < |st.workers| && WorkerEnabled(c, st, st.workers[w], s) && Traced(st)
    ensures DeadFaithful(st.hist, ApplyWork(c, st, w, s).dead)
  {
    hide WellBorn, ReadyFaithful, RowsFaithful, Faithful, Buried;
    var p := st.workers[w];
    if s.Bury? {
      BuriedFaithful(c, st, p.job, StoreUnavailable, s.readAt);
    } else if s.GiveUp? {
      if p.kind == Terminal {
        BuriedFaithful(c, st, p.job, TerminalStatus, s.readAt);
      } else {
        BuriedFaithful(c, st, p.job, AttemptsExhausted, s.readAt);
      }
    } else {
      K.WorkKeepsGone(c, st, w, s);
    }
  }

  lemma WorkRows(c: Config, st: Sys, w: nat, s: WorkerStep)
    requires w < |st.workers| && WorkerEnabled(c, st, st.workers[w], s) && Traced(st)
    ensures RowsFaithful(st.hist, ApplyWork(c, st, w, s).journal)
  {
    if s.Answer? || s.Note? {
      var e := EntryFromJob(st.workers[w].job, if s.Answer? then PostRow(s.kind) else st.workers[w].row, s.readAt);
      assert ApplyWork(c, st, w, s).journal == LastN(st.journal + [e], c.logCap);
      assert EntryTag(e) == JobTag(st.workers[w].job);
    }
  }

  lemma EnqueueFaithful(h: History, st: Sys, j: Job)
    requires ReadyFaithful(h, st.broker) && Faithful(h, JobTag(j)) && j.storeId in st.stores
    ensures ReadyFaithful(h, Enqueued(st, j))
  {
  }

  lemma WorkReady(c: Config, st: Sys, w: nat, s: WorkerStep)
    requires w < |st.workers| && WorkerEnabled(c, st, st.workers[w], s) && Traced(st)
    ensures ReadyFaithful(st.hist, ApplyWork(c, st, w, s).broker)
  {
    if s.Lease? || s.Release? {
    } else {
      A.WorkBroker(c, st, w, s);
      var r := A.Requeues(c, st.workers[w], s);
      if r.Some? {
        assert JobTag(r.value) == JobTag(st.workers[w].job);
        EnqueueFaithful(st.hist, st, r.value);
      }
    }
  }

  lemma WorkHands(c: Config, st: Sys, w: nat, s: WorkerStep)
    requires w < |st.workers| && WorkerEnabled(c, st, st.workers[w], s)
    requires ReadyFaithful(st.hist, st.broker) && HandsFaithful(st.hist, st.workers)
    ensures HandsFaithful(st.hist, ApplyWork(c, st, w, s).workers)
  {
    hide ApplyWork, Faithful;
    WorkKeepsTag(c, st, w, s);
  }

  lemma TracedWork(c: Config, st: Sys, w: nat, s: WorkerStep)
    requires w < |st.workers| && WorkerEnabled(c, st, st.workers[w], s) && Traced(st)
    ensures Traced(ApplyWork(c, st, w, s))
  {
    hide ApplyWork, WellBorn, ReadyFaithful, HandsFaithful, DeadFaithful, RowsFaithful;
    var t := ApplyWork(c, st, w, s);
    K.WorkMintsNothing(c, st, w, s);
    WorkHands(c, st, w, s);
    WorkReady(c, st, w, s);
    WorkDead(c, st, w, s);
    WorkRows(c, st, w, s);
    Regrounded(st.hist, t);
  }

  lemma Regrounded(h: History, t: Sys)
    requires h.births == t.hist.births && h.accepted == t.hist.accepted && WellBorn(h)
    requires ReadyFaithful(h, t.broker) && HandsFaithful(h, t.workers) && DeadFaithful(h, t.dead)
    requires RowsFaithful(h, t.journal)
    ensures Traced(t)
  {
    assert forall r :: r in t.hist.births && t.hist.births[r].parent.Some? ==> ParentOk(h, r);
  }

  // ---------- The other steps ----------

  /** More births and more accepted frames make nothing unfaithful. */
  lemma FaithfulGrows(h: History, k: History, g: Tag)
    requires Faithful(h, g)
    requires forall r :: r in h.births ==> r in k.births && k.births[r] == h.births[r]
    requires forall f :: f in h.accepted ==> f in k.accepted && k.accepted[f] == h.accepted[f]
    ensures Faithful(k, g)
  {
  }

  lemma TracedGrows(st: Sys, t: Sys)
    requires Traced(st) && t.workers == st.workers && t.dead == st.dead && t.journal == st.journal
    requires t.broker == st.broker
    requires forall r :: r in st.hist.births ==> r in t.hist.births && t.hist.births[r] == st.hist.births[r]
    requires forall f :: f in st.hist.accepted ==> f in t.hist.accepted && t.hist.accepted[f] == st.hist.accepted[f]
    requires WellBorn(t.hist)
    ensures Traced(t)
  {
    forall g: Tag | Faithful(st.hist, g)
      ensures Faithful(t.hist, g)
    {
      FaithfulGrows(st.hist, t.hist, g);
    }
  }

  /** A job minted with the payload of its frame and, if a replay, an earlier relay of the same
      frame and store as parent. */
  ghost predicate MintOk(h: History, j: Job) {
    && j.relayId !in h.births && j.frameId in h.accepted && h.accepted[j.frameId] == Payload(j.typ, j.body)
    && (j.replayOf.Some? ==>
          && j.replayOf.value in h.births
          && h.births[j.replayOf.value].frameId == j.frameId && h.births[j.replayOf.value].storeId == j.storeId)
  }

  lemma OneMoreBirth(st: Sys, j: Job)
    requires j.relayId !in st.hist.births && j.storeId in st.stores
    ensures |Minted(st, j).hist.births| == |st.hist.births| + 1
  {
    hide Enqueued;
    assert Minted(st, j).hist.births.Keys == st.hist.births.Keys + {j.relayId};
  }

  lemma MintWellBorn(st: Sys, j: Job)
    requires WellBorn(st.hist) && MintOk(st.hist, j) && j.storeId in st.stores
    ensures WellBorn(Minted(st, j).hist)
  {
    hide Enqueued;
    var h, k := st.hist, Minted(st, j).hist;
    OneMoreBirth(st, j);
    forall r | r in k.births && k.births[r].parent.Some?
      ensures ParentOk(k, r)
    {
      if r != j.relayId {
        assert ParentOk(h, r);
      }
    }
  }

  lemma MintTraced(st: Sys, j: Job)
    requires Traced(st) && MintOk(st.hist, j) && j.storeId in st.stores
    ensures Traced(Minted(st, j))
  {
    var t := Minted(st, j);
    MintWellBorn(st, j);
    TracedGrows(st, st.(hist := t.hist));
    EnqueueFaithful(t.hist, st, j);
  }

  lemma MintedJobOk(c: Config, st: Sys, l: Label)
    requires Traced(st) && Enabled(c, st, l) && (l.RelayFrame? || l.ReplayDead? || l.ReplayJournal?)
    ensures MintOk(st.hist, A.MintedJob(c, st, l))
  {
    if l.ReplayDead? {
      assert Faithful(st.hist, DeadTag(st.dead[L.LastAt(st.dead, l.of).value]));
    } else if l.ReplayJournal? {
      var e := L.LastEntry(st.journal, l.of).value;
      var i :| 0 <= i < |st.journal| && st.journal[i] == e;
      assert Faithful(st.hist, EntryTag(e));
    }
  }

  lemma RemoveTraced(c: Config, st: Sys, of: Id)
    requires Traced(st) && Enabled(c, st, RemoveDead(of))
    ensures Traced(Apply(c, st, RemoveDead(of)))
  {
    hide Faithful, WellBorn, ReadyFaithful, HandsFaithful, RowsFaithful, L.DeadIds;
    var t := Apply(c, st, RemoveDead(of));
    assert forall i :: 0 <= i < |t.dead| ==> t.dead[i] in st.dead;
    Regrounded(st.hist, t);
  }

  lemma TracedMint(c: Config, st: Sys, l: Label)
    requires Traced(st) && Enabled(c, st, l) && (l.RelayFrame? || l.ReplayDead? || l.ReplayJournal?)
    ensures Traced(Apply(c, st, l))
  {
    hide Faithful, WellBorn, ReadyFaithful, HandsFaithful, DeadFaithful, RowsFaithful, MintOk;
    MintedJobOk(c, st, l);
    MintTraced(st, A.MintedJob(c, st, l));
    Regrounded(Minted(st, A.MintedJob(c, st, l)).hist, Apply(c, st, l));
  }

  lemma TracedAccept(c: Config, st: Sys, f: Id, p: Payload)
    requires Traced(st) && Enabled(c, st, AcceptFrame(f, p))
    ensures Traced(Apply(c, st, AcceptFrame(f, p)))
  {
    hide Faithful, Trim, ValidType, PlanOf;
    TracedGrows(st, Apply(c, st, AcceptFrame(f, p)));
  }

  lemma TracedStep(c: Config, st: Sys, l: Label)
    requires Traced(st) && Enabled(c, st, l)
    ensures Traced(Apply(c, st, l))
  {
    hide Faithful, WellBorn, HandsFaithful, DeadFaithful, RowsFaithful, ApplyWork, Ensured, C.Settle;
    if l.Work? {
      TracedWork(c, st, l.w, l.step);
    } else if l.RelayFrame? || l.ReplayDead? || l.ReplayJournal? {
      TracedMint(c, st, l);
    } else if l.RemoveDead? {
      RemoveTraced(c, st, l.of);
    } else if l.AcceptFrame? {
      TracedAccept(c, st, l.frame, l.payload);
    } else {
      Regrounded(st.hist, Apply(c, st, l));
    }
  }

  lemma {:induction false} TracedHolds(c: Config, states: seq<Sys>, labels: seq<Label>, i: nat)
    requires IsRun(c, states, labels) && Initial(states[0]) && i <= |labels|
    ensures Traced(states[i])
  {
    if i > 0 {
      TracedHolds(c, states, labels, i - 1);
      assert Steps(c, states[i - 1], labels[i - 1], states[i]);
      TracedStep(c, states[i - 1], labels[i - 1]);
    }
  }

  // ---------- What follows ----------

  /** A job, dead letter or journal row with this tag is somewhere in the system. */
  ghost predicate Carries(st: Sys, g: Tag) {
    || (exists id, j :: id in st.broker && j in st.broker[id].ready && JobTag(j) == g)
    || (exists w :: 0 <= w < |st.workers| && st.workers[w].Held().Some? && JobTag(st.workers[w].job) == g)
    || (exists k :: 0 <= k < |st.dead| && DeadTag(st.dead[k]) == g)
    || (exists k :: 0 <= k < |st.journal| && EntryTag(st.journal[k]) == g)
  }

  /** In every reachable state, whatever carries a frame id carries the type and body that frame
      was accepted with, and the store and the replayed relay its own relay id was minted with. */
  lemma PayloadsAreAcceptedPayloads(c: Config, states: seq<Sys>, labels: seq<Label>, i: nat, g: Tag)
    requires IsRun(c, states, labels) && Initial(states[0]) && i <= |labels| && Carries(states[i], g)
    ensures var h := states[i].hist;
      && g.frameId in h.accepted && h.accepted[g.frameId] == Payload(g.typ, g.body)
      && g.relayId in h.births && h.births[g.relayId].frameId == g.frameId
      && h.births[g.relayId].storeId == g.storeId && h.births[g.relayId].parent == g.replayOf
  {
    TracedHolds(c, states, labels, i);
    assert Faithful(states[i].hist, g);
  }

  /** The relay that following ReplayOf from r ends at; that it ends is the termination of this function. */
  ghost function Ancestor(h: History, r: Id): (a: Id)
    requires WellBorn(h) && r in h.births
    ensures a in h.births && h.births[a].parent.None?
    ensures h.births[a].frameId == h.births[r].frameId && h.births[a].storeId == h.births[r].storeId
    decreases h.births[r].rank
  {
    if h.births[r].parent.None? then r
    else
      assert ParentOk(h, r);
      Ancestor(h, h.births[r].parent.value)
  }

  /** In every reachable state following ReplayOf from any relay ends at a relay minted at ingest,
      of the same frame and the same store. */
  lemma ReplaysDescendFromIngest(c: Config, states: seq<Sys>, labels: seq<Label>, i: nat, r: Id) returns (a: Id)
    requires IsRun(c, states, labels) && Initial(states[0]) && i <= |labels| && r in states[i].hist.births
    ensures WellBorn(states[i].hist) && a == Ancestor(states[i].hist, r)
    ensures states[i].hist.births[a].parent.None?
    ensures states[i].hist.births[a].frameId == states[i].hist.births[r].frameId
  {
    TracedHolds(c, states, labels, i);
    a := Ancestor(states[i].hist, r);
  }

  /** A replay never fails for want of a stored body. */
  lemma ReplayHasBody(c: Config, states: seq<Sys>, labels: seq<Label>, i: nat, k: nat, newId: Id, now: Time)
    requires IsRun(c, states, labels) && Initial(states[0]) && i <= |labels|
    ensures k < |states[i].dead| ==> JobFromDead(states[i].dead[k], newId, now).Some?
    ensures k < |states[i].journal| ==> JobFromEntry(states[i].journal[k], newId, now).Some?
  {
    TracedHolds(c, states, labels, i);
    var st := states[i];
    assert k < |st.dead| ==> Faithful(st.hist, DeadTag(st.dead[k]));
    assert k < |st.journal| ==> Faithful(st.hist, EntryTag(st.journal[k]));
  }
}
