/** The rate bound of a store over whole runs: its bucket is never replaced, so what its workers take
    out of it in any stretch of a run is bounded as in Buckets. */
module StoreRates {
  import opened Common
  import opened Jobs
  import opened Routing
  import opened Delivery
  import C = Breakers
  import R = Buckets
  import A = Accounts
  import F = Progress
  import O = Overtaking

  /** The step is a Take that takes a token out of the store's bucket: a POST goes out for it. */
  ghost predicate TakesToken(st: Sys, l: Label, id: Id) {
    && l.Work? && l.step.Take? && l.w < |st.workers| && st.workers[l.w].Admitted? && st.workers[l.w].job.storeId == id
    && id in st.gates.buckets && R.Consumes(st.gates.buckets[id], st.now)
  }

  /** How many of steps i, ..., j - 1 do. */
  ghost function TokensTaken(states: seq<Sys>, labels: seq<Label>, i: nat, j: nat, id: Id): nat
    requires i <= j <= |labels| && |states| == |labels| + 1
    decreases j
  {
    if i == j then 0
    else TokensTaken(states, labels, i, j - 1, id) + if TakesToken(states[j - 1], labels[j - 1], id) then 1 else 0
  }

  /** Such a step sends the POST out. */
  lemma TokenMeansPost(c: Config, st: Sys, l: Label, id: Id)
    requires Enabled(c, st, l) && TakesToken(st, l, id)
    ensures Apply(c, st, l).workers[l.w].Posting?
  {
  }

  /** What a Take would find. */
  ghost function OnHand(st: Sys, id: Id): real
    requires id in st.gates.buckets
  {
    R.Refilled(st.gates.buckets[id], st.now)
  }

  // ---------- One step ----------

  /** The store's gates are in order and its bucket is the one made for the rate and burst of d. */
  ghost predicate Tended(c: Config, st: Sys, id: Id, rate: real, burst: real) {
    && F.GatesMatch(st, id) && id in st.gates.buckets && R.Valid(st.gates.buckets[id])
    && st.gates.buckets[id].lastTime <= st.now
    && st.gates.buckets[id].rate == rate && st.gates.buckets[id].burst == burst
  }

  lemma TakeHere(st: Sys, w: nat, id: Id)
    requires w < |st.workers| && st.workers[w].Admitted? && st.workers[w].job.storeId == id && id in st.gates.buckets
    requires R.Valid(st.gates.buckets[id]) && st.gates.buckets[id].lastTime <= st.now
    ensures var t := TakeStep(st, w, st.workers[w].job);
      && t.now == st.now && id in t.gates.buckets
      && OnHand(t, id) + (if R.Consumes(st.gates.buckets[id], st.now) then 1 else 0) as real == OnHand(st, id)
  {
    var k := st.gates.buckets[id];
    R.TakeBalance(k, st.now);
    R.TakeKeepsValid(k, st.now);
    R.EarnedGrows(k.rate, 0, 0);
  }

  /** Anything but a Take or the clock leaves a bucket alone once it is there. */
  lemma BucketKept(c: Config, st: Sys, l: Label, id: Id)
    requires Enabled(c, st, l) && F.GatesMatch(st, id) && id in st.gates.buckets && !l.AdvanceTo?
    requires l.Work? ==> !l.step.Take?
    ensures var t := Apply(c, st, l);
      t.now == st.now && id in t.gates.buckets && t.gates.buckets[id] == st.gates.buckets[id]
  {
    hide ApplyWork;
    if l.Work? {
      BucketKeptByWork(c, st, l.w, l.step, id);
    } else if l.OpenGates? && l.id == id {
      F.EnsureIsIdle(st, id);
    }
  }

  lemma BucketKeptByWork(c: Config, st: Sys, w: nat, s: WorkerStep, id: Id)
    requires w < |st.workers| && WorkerEnabled(c, st, st.workers[w], s) && !s.Take?
    requires F.GatesMatch(st, id) && id in st.gates.buckets
    ensures var t := ApplyWork(c, st, w, s);
      t.now == st.now && id in t.gates.buckets && t.gates.buckets[id] == st.gates.buckets[id]
  {
    hide C.AllowOf, C.FailureOf;
    if s.Allow? {
      if st.workers[w].job.storeId == id {
        F.EnsureIsIdle(st, id);
      }
    } else if !s.Tell? {
      F.QuietGates(c, st, w, s);
    }
  }

  /** A step adds no more than the clock earns, and what it takes out is missing. */
  lemma TokensStep(c: Config, st: Sys, l: Label, id: Id, rate: real, burst: real)
    requires Enabled(c, st, l) && Tended(c, st, id, rate, burst)
    ensures var t := Apply(c, st, l);
      && id in t.gates.buckets && st.now <= t.now
      && OnHand(t, id) + (if TakesToken(st, l, id) then 1 else 0) as real <=
        OnHand(st, id) + R.Earned(rate, t.now - st.now)
  {
    hide ApplyWork, R.Earned, R.Refilled;
    R.EarnedGrows(rate, 0, 0);
    if l.AdvanceTo? {
      F.RefilledLater(st.gates.buckets[id], st.now, l.to);
    } else if l.Work? && l.step.Take? {
      TokensTake(c, st, l.w, id);
    } else {
      BucketKept(c, st, l, id);
    }
  }

  lemma TokensTake(c: Config, st: Sys, w: nat, id: Id)
    requires w < |st.workers| && WorkerEnabled(c, st, st.workers[w], Take) && id in st.gates.buckets
    requires R.Valid(st.gates.buckets[id]) && st.gates.buckets[id].lastTime <= st.now
    ensures var t := ApplyWork(c, st, w, Take);
      t.now == st.now && id in t.gates.buckets
      && OnHand(t, id) + (if TakesToken(st, Work(w, Take), id) then 1 else 0) as real == OnHand(st, id)
  {
    hide R.Refilled, R.TakeOf;
    if st.workers[w].job.storeId == id {
      TakeHere(st, w, id);
    } else {
      F.TakeLeaves(st, w, id);
    }
  }

  /** A bucket is made full. */
  lemma MadeFull(c: Config, st: Sys, l: Label, id: Id)
    requires Enabled(c, st, l) && F.GatesMatch(st, id) && id !in st.gates.buckets && id in Apply(c, st, l).gates.buckets
    requires forall d :: d in st.stores ==> Normalized(st.stores[d])
    ensures var t := Apply(c, st, l);
      t.now == st.now && OnHand(t, id) == t.gates.buckets[id].burst && !TakesToken(st, l, id)
  {
    hide C.AllowOf;
    var t := Apply(c, st, l);
    if l.Work? && !l.step.Allow? {
      NotMade(c, st, l.w, l.step, id);
    } else {
      R.EarnedGrows(t.gates.buckets[id].rate, 0, 0);
    }
  }

  lemma NotMade(c: Config, st: Sys, w: nat, s: WorkerStep, id: Id)
    requires w < |st.workers| && WorkerEnabled(c, st, st.workers[w], s) && !s.Allow? && id !in st.gates.buckets
    ensures id !in ApplyWork(c, st, w, s).gates.buckets
  {
    if s.Take? {
      F.TakeLeaves(st, w, id);
    } else if !s.Tell? {
      F.QuietGates(c, st, w, s);
    }
  }

  // ---------- Over every run ----------

  lemma TendedAlways(c: Config, states: seq<Sys>, labels: seq<Label>, i: nat, id: Id)
    requires C.Normal(c.breaker) && IsRun(c, states, labels) && Initial(states[0]) && i <= |labels|
    ensures F.GatesMatch(states[i], id)
    ensures id in states[i].gates.buckets ==>
      id in states[i].stores && Tended(c, states[i], id, states[i].stores[id].rate, states[i].stores[id].burst as real)
  {
    var n := |states[0].workers|;
    forall k | 0 <= k < i
      ensures F.StaleAtMost(states[k], labels[k], id, n)
    {
      F.CrewStays(c, states, labels, k);
      A.CountAtMost(states[k].workers, A.Admitting(id));
    }
    F.GatesHold(c, states, labels, i, id, n);
  }

  /** A store without a bucket has taken nothing from it. */
  lemma {:induction false} NoneTaken(c: Config, states: seq<Sys>, labels: seq<Label>, i: nat, j: nat, id: Id)
    requires C.Normal(c.breaker) && IsRun(c, states, labels) && Initial(states[0]) && i <= j <= |labels|
    requires id !in states[j].gates.buckets
    ensures TokensTaken(states, labels, i, j, id) == 0
    decreases j
  {
    hide Enabled, Apply, OnHand, R.Earned, F.GatesMatch, R.Consumes;
    if i < j {
      var st := states[j - 1];
      assert Steps(c, st, labels[j - 1], states[j]);
      TendedAlways(c, states, labels, j - 1, id);
      if id in st.gates.buckets {
        TokensStep(c, st, labels[j - 1], id, st.gates.buckets[id].rate, st.gates.buckets[id].burst);
      } else {
        NoneTaken(c, states, labels, i, j - 1, id);
      }
    }
  }

  /** No bucket holds more than its burst. */
  lemma AtMostBurst(st: Sys, id: Id)
    requires id in st.gates.buckets
    ensures OnHand(st, id) <= st.gates.buckets[id].burst
  {
  }

  /** Over any run and any stretch of it: the tokens a store's workers have taken, and what its bucket
      still holds, are at most the burst and what the rate earns in the meantime. */
  lemma {:induction false} OnHandAndTaken(c: Config, states: seq<Sys>, labels: seq<Label>, i: nat, j: nat, id: Id)
    requires C.Normal(c.breaker) && IsRun(c, states, labels) && Initial(states[0]) && i <= j <= |labels|
    requires id in states[j].gates.buckets
    ensures id in states[j].stores && var d := states[j].stores[id];
      OnHand(states[j], id) + TokensTaken(states, labels, i, j, id) as real
        <= d.burst as real + R.Earned(d.rate, states[j].now - states[i].now)
    decreases j
  {
    hide Enabled, Apply, OnHand, TakesToken, R.Earned, R.Valid, F.GatesMatch, Normalized;
    TendedAlways(c, states, labels, j, id);
    AtMostBurst(states[j], id);
    var d := states[j].stores[id];
    EarnedSince(c, states, labels, i, j, id);
    if i < j {
      var st, l := states[j - 1], labels[j - 1];
      assert Steps(c, st, l, states[j]);
      TendedAlways(c, states, labels, j - 1, id);
      if id in st.gates.buckets {
        OnHandAndTaken(c, states, labels, i, j - 1, id);
        F.StoreStays(c, st, l, id);
        TokensStep(c, st, l, id, d.rate, d.burst as real);
        R.EarnedAdds(d.rate, st.now - states[i].now, states[j].now - st.now);
      } else {
        NoneTaken(c, states, labels, i, j - 1, id);
        A.AccountsHold(c, states, labels, j - 1);
        MadeFull(c, st, l, id);
      }
    }
  }

  /** Nothing is earned at once, and nothing is ever lost with time. */
  lemma EarnedSince(c: Config, states: seq<Sys>, labels: seq<Label>, i: nat, j: nat, id: Id)
    requires C.Normal(c.breaker) && IsRun(c, states, labels) && Initial(states[0]) && i <= j <= |labels|
    requires id in states[j].stores
    ensures var e := R.Earned(states[j].stores[id].rate, states[j].now - states[i].now);
      e >= 0.0 && (i == j ==> e == 0.0)
  {
    hide Enabled, Apply;
    O.ClockAdvances(c, states, labels, i, j);
    A.AccountsHold(c, states, labels, j);
    R.EarnedGrows(states[j].stores[id].rate, 0, states[j].now - states[i].now);
  }

  /** The rate limit over runs: the POSTs of a store that take a token, in any stretch of any run, are at
      most its burst and what its rate earns in the meantime, whoever sends them. */
  lemma PostsWithinRate(c: Config, states: seq<Sys>, labels: seq<Label>, i: nat, j: nat, id: Id)
    requires C.Normal(c.breaker) && IsRun(c, states, labels) && Initial(states[0]) && i <= j <= |labels|
    ensures id !in states[j].gates.buckets ==> TokensTaken(states, labels, i, j, id) == 0
    ensures id in states[j].gates.buckets ==> id in states[j].stores && var d := states[j].stores[id];
      TokensTaken(states, labels, i, j, id) as real <= d.burst as real + R.Earned(d.rate, states[j].now - states[i].now)
  {
    hide Enabled, Apply, TakesToken, R.Earned, F.GatesMatch, Normalized;
    if id in states[j].gates.buckets {
      OnHandAndTaken(c, states, labels, i, j, id);
      TendedAlways(c, states, labels, j, id);
      R.TakeKeepsValid(states[j].gates.buckets[id], states[j].now);
    } else {
      NoneTaken(c, states, labels, i, j, id);
    }
  }
}
