/** What a dead letter tells: how often its relay was POSTed, by the reason it gives. */
module Burials {
  import opened Common
  import opened Jobs
  import opened Delivery
  import C = Breakers
  import P = Backoff
  import A = Accounts
  import K = Ledger
  import T = Attempts

  /** The relay of this dead letter was POSTed `attempt` times, as often as its reason allows. */
  ghost predicate Spent(c: Config, h: History, it: DeadItem) {
    && PostsOf(h, it.relayId) == RowsOf(h, it.relayId) == T.Iota(it.attempt)
    && (it.reason == StoreUnavailable ==> it.attempt < c.policy.maxAttempts)
    && (it.reason == TerminalStatus ==> 1 <= it.attempt <= c.policy.maxAttempts)
    && (it.reason == AttemptsExhausted ==> it.attempt == c.policy.maxAttempts)
  }

  ghost predicate AllSpent(c: Config, st: Sys) {
    forall it :: it in st.dead ==> Spent(c, st.hist, it)
  }

  // ---------- What the steps do to the numbers ----------

  /** Only a Take of a worker that holds r counts a POST of r, ... */
  lemma PostsKept(c: Config, st: Sys, w: nat, s: WorkerStep)
    requires w < |st.workers| && WorkerEnabled(c, st, st.workers[w], s) && !s.Take?
    ensures ApplyWork(c, st, w, s).hist.posts == st.hist.posts
  {
    hide ApplyWork;
    if s.Bury? || s.GiveUp? {
      T.QuietBuryHand(c, st, w, s);
    } else if s.Allow? || s.Tell? {
      GatePosts(c, st, w, s);
    } else {
      OtherPosts(c, st, w, s);
    }
  }

  lemma GatePosts(c: Config, st: Sys, w: nat, s: WorkerStep)
    requires w < |st.workers| && WorkerEnabled(c, st, st.workers[w], s) && (s.Allow? || s.Tell?)
    ensures ApplyWork(c, st, w, s).hist.posts == st.hist.posts
  {
    hide C.AllowOf, C.FailureOf, Ensured;
  }

  lemma OtherPosts(c: Config, st: Sys, w: nat, s: WorkerStep)
    requires w < |st.workers| && WorkerEnabled(c, st, st.workers[w], s)
    requires !s.Take? && !s.Bury? && !s.GiveUp? && !s.Allow? && !s.Tell?
    ensures ApplyWork(c, st, w, s).hist.posts == st.hist.posts
  {
    hide Enqueued, P.Delay, LastN;
  }

  /** ... and only an Answer of one journals a POST of it. */
  lemma RowsKept(c: Config, st: Sys, w: nat, s: WorkerStep)
    requires w < |st.workers| && WorkerEnabled(c, st, st.workers[w], s) && !s.Answer?
    ensures ApplyWork(c, st, w, s).hist.rows == st.hist.rows
  {
    hide ApplyWork;
    if s.Note? {
      NoteRows(c, st, w, s.readAt);
    } else {
      T.QuietJournal(c, st, w, s);
    }
  }

  lemma NoteRows(c: Config, st: Sys, w: nat, at: Time)
    requires w < |st.workers| && WorkerEnabled(c, st, st.workers[w], Note(at))
    ensures ApplyWork(c, st, w, Note(at)).hist.rows == st.hist.rows
  {
    hide LastN;
  }

  ghost predicate SameNumbers(h: History, k: History, r: Id) {
    PostsOf(k, r) == PostsOf(h, r) && RowsOf(k, r) == RowsOf(h, r)
  }

  lemma WorkNumbers(c: Config, st: Sys, w: nat, s: WorkerStep, r: Id)
    requires w < |st.workers| && WorkerEnabled(c, st, st.workers[w], s)
    requires st.workers[w].Held().Some? ==> st.workers[w].Held().value.relayId != r
    ensures SameNumbers(st.hist, ApplyWork(c, st, w, s).hist, r)
  {
    hide ApplyWork;
    if s.Take? {
      T.TakeShape(c, st, w);
      RowsKept(c, st, w, s);
    } else if s.Answer? {
      PostsKept(c, st, w, s);
      AnswerNumbers(c, st, w, s);
    } else {
      PostsKept(c, st, w, s);
      RowsKept(c, st, w, s);
    }
  }

  lemma AnswerNumbers(c: Config, st: Sys, w: nat, s: WorkerStep)
    requires w < |st.workers| && WorkerEnabled(c, st, st.workers[w], s) && s.Answer?
    ensures var j := st.workers[w].job;
      ApplyWork(c, st, w, s).hist.rows == st.hist.rows[j.relayId := RowsOf(st.hist, j.relayId) + [j.attempt]]
  {
    hide LastN;
  }

  /** A step leaves the numbers of a dead relay alone: nobody holds it, and its id is taken. */
  lemma DeadNumbers(c: Config, st: Sys, l: Label, r: Id)
    requires K.Balanced(st) && Enabled(c, st, l) && K.DeadOf(st, r).Some?
    ensures SameNumbers(st.hist, Apply(c, st, l).hist, r)
  {
    hide ApplyWork, K.DeadOf;
    DeadIsKnown(st, r);
    if l.Work? {
      WorkNumbers(c, st, l.w, l.step, r);
    } else if l.RelayFrame? || l.ReplayDead? || l.ReplayJournal? {
      MintNumbers(c, st, l, r);
    } else {
      T.RestShape(c, st, l);
    }
  }

  lemma MintNumbers(c: Config, st: Sys, l: Label, r: Id)
    requires Enabled(c, st, l) && (l.RelayFrame? || l.ReplayDead? || l.ReplayJournal?) && r in st.hist.births
    ensures SameNumbers(st.hist, Apply(c, st, l).hist, r)
  {
    hide Enqueued;
  }

  lemma DeadIsKnown(st: Sys, r: Id)
    requires K.Balanced(st) && K.DeadOf(st, r).Some?
    ensures r in st.hist.births
    ensures forall w :: 0 <= w < |st.workers| && st.workers[w].Held().Some? ==> st.workers[w].Held().value.relayId != r
  {
    K.DeadCounted(st, r);
    assert K.Tally(st, r) <= 1;
    A.CountPositive(st.workers, A.HoldsRelay(r));
    forall w | 0 <= w < |st.workers| && st.workers[w].Held().Some?
      ensures st.workers[w].Held().value.relayId != r
    {
      assert A.Selects(A.HoldsRelay(st.workers[w].Held().value.relayId), st.workers[w]);
    }
  }

  // ---------- What a burial writes ----------

  /** A dead letter after a burial was there before, or is that of the buried job. */
  lemma BuriedItem(c: Config, st: Sys, w: nat, s: WorkerStep, it: DeadItem)
    requires w < |st.workers| && WorkerEnabled(c, st, st.workers[w], s) && (s.Bury? || s.GiveUp?)
    requires it in ApplyWork(c, st, w, s).dead
    ensures it in st.dead || it == DeadFromJob(st.workers[w].job, K.ReasonOf(st.workers[w], s), s.readAt)
  {
    hide ApplyWork, K.ReasonOf;
    K.BuryShape(c, st, w, s);
    var x := DeadFromJob(st.workers[w].job, K.ReasonOf(st.workers[w], s), s.readAt);
    assert it in st.dead + [x];
  }

  lemma BuriedSpent(c: Config, st: Sys, w: nat, s: WorkerStep)
    requires T.Disciplined(c, st) && w < |st.workers| && WorkerEnabled(c, st, st.workers[w], s)
    requires s.Bury? || s.GiveUp?
    ensures Spent(c, st.hist, DeadFromJob(st.workers[w].job, K.ReasonOf(st.workers[w], s), s.readAt))
  {
    assert T.HandOk(c, st.hist, st.workers[w]);
  }

  lemma BurialSpent(c: Config, st: Sys, w: nat, s: WorkerStep)
    requires T.Disciplined(c, st) && K.Balanced(st) && AllSpent(c, st)
    requires w < |st.workers| && WorkerEnabled(c, st, st.workers[w], s) && (s.Bury? || s.GiveUp?)
    ensures AllSpent(c, ApplyWork(c, st, w, s))
  {
    hide ApplyWork, T.Disciplined, K.ReasonOf, K.Balanced;
    var t := ApplyWork(c, st, w, s);
    BuriedSpent(c, st, w, s);
    PostsKept(c, st, w, s);
    RowsKept(c, st, w, s);
    forall it | it in t.dead
      ensures Spent(c, t.hist, it)
    {
      BuriedItem(c, st, w, s, it);
    }
  }

  // ---------- Over every run ----------

  lemma SpentStep(c: Config, st: Sys, l: Label)
    requires T.Disciplined(c, st) && K.Balanced(st) && AllSpent(c, st) && Enabled(c, st, l)
    ensures AllSpent(c, Apply(c, st, l))
  {
    hide ApplyWork, T.Disciplined, K.Balanced, K.DeadOf;
    if l.Work? && (l.step.Bury? || l.step.GiveUp?) {
      BurialSpent(c, st, l.w, l.step);
    } else {
      var t := Apply(c, st, l);
      forall it | it in t.dead
        ensures Spent(c, t.hist, it)
      {
        K.DeadFrom(c, st, l, it);
        DeadFound(st, it);
        DeadNumbers(c, st, l, it.relayId);
      }
    }
  }

  lemma DeadFound(st: Sys, it: DeadItem)
    requires it in st.dead
    ensures K.DeadOf(st, it.relayId).Some?
  {
  }

  lemma {:induction false} SpentHolds(c: Config, states: seq<Sys>, labels: seq<Label>, i: nat)
    requires GoodConfig(c) && IsRun(c, states, labels) && Initial(states[0]) && i <= |labels|
    ensures AllSpent(c, states[i])
  {
    hide Enabled, Apply, T.Disciplined, K.Balanced;
    if i > 0 {
      SpentHolds(c, states, labels, i - 1);
      T.DisciplinedHolds(c, states, labels, i - 1);
      K.BalancedHolds(c, states, labels, i - 1);
      assert Steps(c, states[i - 1], labels[i - 1], states[i]);
      SpentStep(c, states[i - 1], labels[i - 1]);
    }
  }

  /** In every reachable state: a relay dead-lettered because its attempts were exhausted has been POSTed
      exactly maxAttempts times, one with a terminal answer at least once and at most that often, one
      whose store was unavailable less often; and its dead letter gives the number. */
  lemma DeadLettersTell(c: Config, states: seq<Sys>, labels: seq<Label>, i: nat, it: DeadItem)
    requires GoodConfig(c) && IsRun(c, states, labels) && Initial(states[0]) && i <= |labels| && it in states[i].dead
    ensures var n := |PostsOf(states[i].hist, it.relayId)|;
      && n == |RowsOf(states[i].hist, it.relayId)| == it.attempt
      && (it.reason == AttemptsExhausted ==> n == c.policy.maxAttempts)
      && (it.reason == TerminalStatus ==> 1 <= n <= c.policy.maxAttempts)
      && (it.reason == StoreUnavailable ==> n < c.policy.maxAttempts)
  {
    SpentHolds(c, states, labels, i);
  }

  /** After a retryable outcome a worker gives up exactly when the relay has been POSTed maxAttempts
      times, and puts it back exactly when it has been POSTed less often. */
  lemma GivesUpIff(c: Config, states: seq<Sys>, labels: seq<Label>, i: nat)
    requires GoodConfig(c) && IsRun(c, states, labels) && Initial(states[0]) && i < |labels|
    requires labels[i].Work? && labels[i].w < |states[i].workers|
    requires states[i].workers[labels[i].w].Settling? && states[i].workers[labels[i].w].kind == Retryable
    ensures var r := states[i].workers[labels[i].w].job.relayId;
      && (labels[i].step.GiveUp? <==> |PostsOf(states[i].hist, r)| == c.policy.maxAttempts)
      && (labels[i].step.Retry? <==> |PostsOf(states[i].hist, r)| < c.policy.maxAttempts)
  {
    T.DisciplinedHolds(c, states, labels, i);
    assert T.HandOk(c, states[i].hist, states[i].workers[labels[i].w]);
    assert Steps(c, states[i], labels[i], states[i + 1]);
  }
}
