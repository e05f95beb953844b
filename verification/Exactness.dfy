/**
 The bounds of module Delivery are exact: for every configuration there are runs that reach them.
 All runs here concern a single job, number 0.
 */
module Exactness {
  import opened Prelude
  import opened JobTable
  import opened Dispatch
  import opened Protocol
  import opened JobView
  import opened Delivery
  import opened Worker
  import opened Drain
  import opened Leases

  ghost predicate Solo(s: State) {
    s.jobs.Keys == {0} && s.ledger.Keys == {0}
  }

  /** The job can be claimed at once. */
  ghost predicate Claimable0(s: State) {
    Solo(s) && Claimable(s.jobs[0], s.clock)
  }

  /** The job is leased, by whichever worker. */
  ghost predicate Leased0(s: State) {
    Solo(s) && s.jobs[0].status.Processing? && s.jobs[0].startedAt.Some? && s.jobs[0].startedAt.value <= s.clock
  }

  // ----- Building blocks: short runs of one worker on the one job

  lemma Arrive(cfg: Config, clock: Time) returns (steps: seq<Step>)
    requires ValidConfig(cfg)
    ensures Executable(cfg, Init(cfg, clock), steps)
    ensures var s := Exec(cfg, Init(cfg, clock), steps);
            && Claimable0(s) && s.jobs[0].attempts == 0 && s.ledger[0] == Entry(0, 0, 0, 0, false)
            && s.workers == Init(cfg, clock).workers && s.sends == []
  {
    var msg := Message(["a@b"], "");
    var step := Enqueue(clock, "", [msg], [0]);
    EnqueuedRows(map[], "", [msg], [0], clock);
    steps := [step];
    ExecOne(cfg, Init(cfg, clock), step);
    var s := Apply(cfg, Init(cfg, clock), step);
    assert s.jobs.Keys == {0};
    assert [0 as JobId][0] in s.jobs;
  }

  lemma Take(cfg: Config, s: State, w: nat) returns (steps: seq<Step>)
    requires cfg.claimLimit >= 1 && Claimable0(s) && w < |s.workers| && s.workers[w].Idle?
    ensures FriendlyRun(cfg, s, steps) && Claims(cfg, s, steps) == 1
    ensures var s' := Exec(cfg, s, steps);
            && Leased0(s') && s'.clock == s.clock && s'.sends == s.sends
            && s'.jobs[0].attempts == s.jobs[0].attempts
            && s'.workers == s.workers[w := Claimed([Job(0, s'.jobs[0])], s.clock)]
            && s'.ledger[0] == s.ledger[0].(owner := w, epochAccepted := false)
  {
    var order: seq<JobId> := [0];
    var step := Claim(w, s.clock, order, order);
    assert IsEligibleOrder(s.jobs, s.clock, order);
    var ids := Taken(cfg, s, order);
    assert ids == order;
    steps := [step];
    ExecOne(cfg, s, step);
    assert Apply(cfg, s, step).workers[w].batch == [Job(0, Apply(cfg, s, step).jobs[0])];
  }

  /** The lease runs out and the job is requeued. */
  lemma Expire(cfg: Config, s: State) returns (steps: seq<Step>)
    requires cfg.lease >= 0 && Leased0(s)
    ensures Executable(cfg, s, steps)
    ensures var s' := Exec(cfg, s, steps);
            && Claimable0(s') && s'.workers == s.workers && s'.sends == s.sends
            && s'.jobs[0].attempts == s.jobs[0].attempts
            && s'.ledger[0] == s.ledger[0].(requeues := s.ledger[0].requeues + 1)
  {
    steps := [Tick(cfg.lease + 1), RequeueStale(s.clock + cfg.lease + 1)];
    ExecTwo(cfg, s, steps[0], steps[1]);
  }

  /** The send is accepted and its mark fails. */
  lemma AcceptAndLose(cfg: Config, s: State, w: nat) returns (steps: seq<Step>)
    requires Leased0(s) && w < |s.workers| && s.workers[w].Claimed? && Carries(s.workers[w].batch, 0)
    ensures Executable(cfg, s, steps)
    ensures var s' := Exec(cfg, s, steps);
            && Leased0(s') && s'.workers == s.workers[w := Idle] && s'.jobs == s.jobs
            && AcceptedCount(s'.sends, 0) == AcceptedCount(s.sends, 0) + 1
            && s'.ledger[0].requeues == s.ledger[0].requeues
  {
    steps := [SendOk(w, ""), StoreSent(w, s.clock, false)];
    ExecTwo(cfg, s, steps[0], steps[1]);
    CountAppend(s.sends, Send(w, s.workers[w].batch, Accepted("")), 0);
  }

  ghost predicate HoldsEarly(cfg: Config, p: Phase) {
    p.Claimed? && |p.batch| == 1 && p.batch[0].id == 0 && HasRetryLeft(p.batch[0], cfg.retryMax)
  }

  /** A holder with a retry left is refused and marks. */
  lemma Refuse(cfg: Config, s: State, w: nat) returns (steps: seq<Step>, s': State)
    requires Leased0(s) && w < |s.workers| && HoldsEarly(cfg, s.workers[w])
    ensures Executable(cfg, s, steps) && s' == Exec(cfg, s, steps)
    ensures s'.clock == s.clock && s'.workers == s.workers[w := Idle] && s'.ledger == s.ledger
    ensures 0 in s'.jobs && s'.jobs.Keys == s.jobs.Keys
            && s'.jobs[0].status.Retry? && s'.jobs[0].nextAttemptAt <= s.clock + MAX_BACKOFF
            && s'.jobs[0].attempts == s.jobs[0].attempts + 1
  {
    var job := s.workers[w].batch[0];
    assert s.workers[w].batch == [job];
    SplitOne(job, cfg.retryMax);
    BackoffWindow(job.row.attempts + 1, 1.0);
    var s1 := AfterFail(cfg, s, w, 500, "");
    s' := LastRetry(cfg, s1, w, s.clock, 1.0, true);
    steps := [SendFail(w, 500, ""), StoreRetry(w, s.clock, 1.0, true)];
    ExecTwo(cfg, s, steps[0], steps[1]);
    assert job in [job];
  }

  /** And then the backoff passes. */
  lemma RefuseAndRetry(cfg: Config, s: State, w: nat) returns (steps: seq<Step>)
    requires Leased0(s) && w < |s.workers| && HoldsEarly(cfg, s.workers[w])
    ensures Executable(cfg, s, steps)
    ensures var s' := Exec(cfg, s, steps);
            && Claimable0(s') && s'.workers == s.workers[w := Idle] && s'.ledger == s.ledger
            && s'.jobs[0].attempts == s.jobs[0].attempts + 1 && s'.jobs[0].status.Retry?
  {
    var head, s1 := Refuse(cfg, s, w);
    ExecOne(cfg, s1, Tick(MAX_BACKOFF));
    ExecAppend(cfg, s, head, [Tick(MAX_BACKOFF)]);
    steps := head + [Tick(MAX_BACKOFF)];
  }

  // ----- Duplicates

  ghost predicate AcceptedAndRequeued(s: State, n: nat) {
    && Claimable0(s) && |s.workers| > 0 && s.workers[0].Idle?
    && AcceptedCount(s.sends, 0) == n && s.ledger[0].requeues == n
  }

  lemma {:induction false} RepeatDelivery(cfg: Config, clock: Time, n: nat) returns (steps: seq<Step>)
    requires ValidConfig(cfg)
    ensures Executable(cfg, Init(cfg, clock), steps) && AcceptedAndRequeued(Exec(cfg, Init(cfg, clock), steps), n)
    decreases n
  {
    var s0 := Init(cfg, clock);
    if n == 0 {
      steps := Arrive(cfg, clock);
    } else {
      steps := RepeatDelivery(cfg, clock, n - 1);
      var a := DeliverUnmarked(cfg, Exec(cfg, s0, steps), n - 1);
      ExecAppend(cfg, s0, steps, a);
      var b := Expire(cfg, Exec(cfg, s0, steps + a));
      ExecAppend(cfg, s0, steps + a, b);
      steps := steps + a + b;
    }
  }

  lemma DeliverUnmarked(cfg: Config, s: State, n: nat) returns (steps: seq<Step>)
    requires cfg.claimLimit >= 1 && AcceptedAndRequeued(s, n)
    ensures Executable(cfg, s, steps)
    ensures var s' := Exec(cfg, s, steps);
            && Leased0(s') && |s'.workers| > 0 && s'.workers[0].Idle?
            && AcceptedCount(s'.sends, 0) == n + 1 && s'.ledger[0].requeues == n
  {
    var a := Take(cfg, s, 0);
    var s1 := Exec(cfg, s, a);
    assert s1.workers[0].batch[0].id == 0;
    var b := AcceptAndLose(cfg, s1, 0);
    ExecAppend(cfg, s, a, b);
    steps := a + b;
  }

  /** For every n there is a run that accepts a job n + 1 times after n stale requeues. */
  lemma DuplicateBoundExact(cfg: Config, clock: Time, n: nat) returns (steps: seq<Step>)
    requires ValidConfig(cfg)
    ensures Executable(cfg, Init(cfg, clock), steps)
    ensures var s := Exec(cfg, Init(cfg, clock), steps);
            0 in s.jobs && 0 in s.ledger && s.ledger[0].requeues == n && AcceptedCount(s.sends, 0) == n + 1
  {
    var a := RepeatDelivery(cfg, clock, n);
    var b := DeliverUnmarked(cfg, Exec(cfg, Init(cfg, clock), a), n);
    ExecAppend(cfg, Init(cfg, clock), a, b);
    steps := a + b;
  }

  // ----- Duplicates without any lost acknowledgement

  /** A worker sends and marks after its lease was requeued: accepted, but the mark finds the row waiting for retry. */
  lemma MarkTooLate(cfg: Config, s: State, w: nat) returns (steps: seq<Step>)
    requires Claimable0(s) && w < |s.workers| && s.workers[w].Claimed? && Carries(s.workers[w].batch, 0)
    ensures FriendlyRun(cfg, s, steps) && (forall step :: step in steps ==> !step.Claim?)
    ensures var s' := Exec(cfg, s, steps);
            && Claimable0(s') && s'.workers == s.workers[w := Idle] && s'.ledger[0] == s.ledger[0]
            && AcceptedCount(s'.sends, 0) == AcceptedCount(s.sends, 0) + 1
  {
    steps := [SendOk(w, ""), StoreSent(w, s.clock, true)];
    ExecTwo(cfg, s, steps[0], steps[1]);
    CountAppend(s.sends, Send(w, s.workers[w].batch, Accepted("")), 0);
  }

  ghost predicate AcceptedLate(s: State, n: nat) {
    AcceptedAndRequeued(s, n) && s.ledger[0].lostAcks == 0
  }

  /** Claim, outlive the lease, be requeued, send, mark in vain. */
  lemma LateRound(cfg: Config, s: State, n: nat) returns (steps: seq<Step>)
    requires ValidConfig(cfg) && AcceptedLate(s, n)
    ensures Executable(cfg, s, steps) && AcceptedLate(Exec(cfg, s, steps), n + 1)
  {
    var a := Take(cfg, s, 0);
    var s1 := Exec(cfg, s, a);
    assert s1.workers[0].batch[0].id == 0;
    var b := Expire(cfg, s1);
    ExecAppend(cfg, s, a, b);
    var c := MarkTooLate(cfg, Exec(cfg, s1, b), 0);
    ExecAppend(cfg, s, a + b, c);
    steps := a + b + c;
  }

  lemma {:induction false} LateRounds(cfg: Config, clock: Time, n: nat) returns (steps: seq<Step>)
    requires ValidConfig(cfg)
    ensures Executable(cfg, Init(cfg, clock), steps) && AcceptedLate(Exec(cfg, Init(cfg, clock), steps), n)
    decreases n
  {
    if n == 0 {
      steps := Arrive(cfg, clock);
    } else {
      steps := LateRounds(cfg, clock, n - 1);
      var a := LateRound(cfg, Exec(cfg, Init(cfg, clock), steps), n - 1);
      ExecAppend(cfg, Init(cfg, clock), steps, a);
      steps := steps + a;
    }
  }

  /**
   With one worker or many, for every n some run in which no acknowledgement is lost accepts a job n + 1 times after
   n stale requeues: late marking alone reaches the duplicate bound.
   */
  lemma LateMarkDuplicates(cfg: Config, clock: Time, n: nat) returns (steps: seq<Step>)
    requires ValidConfig(cfg)
    ensures Executable(cfg, Init(cfg, clock), steps)
    ensures var s := Exec(cfg, Init(cfg, clock), steps);
            && 0 in s.jobs && s.jobs[0].status.Sent?
            && 0 in s.ledger && s.ledger[0].lostAcks == 0 && s.ledger[0].requeues == n
            && AcceptedCount(s.sends, 0) == n + 1
  {
    var s0 := Init(cfg, clock);
    steps := LateRounds(cfg, clock, n);
    var b := Take(cfg, Exec(cfg, s0, steps), 0);
    ExecAppend(cfg, s0, steps, b);
    var c := AcceptAndMark(cfg, Exec(cfg, s0, steps + b), 0);
    ExecAppend(cfg, s0, steps + b, c);
    steps := steps + b + c;
  }

  // ----- Retry budget

  ghost predicate NoReplay(s: State) {
    Solo(s) && s.ledger[0].replays == 0
  }

  ghost predicate AllIdle(cfg: Config, s: State) {
    |s.workers| == cfg.workers && forall w :: 0 <= w < cfg.workers ==> s.workers[w].Idle?
  }

  lemma {:induction false} UseAttempts(cfg: Config, clock: Time, a: nat) returns (steps: seq<Step>)
    requires ValidConfig(cfg) && a < cfg.retryMax
    ensures Executable(cfg, Init(cfg, clock), steps)
    ensures var s := Exec(cfg, Init(cfg, clock), steps);
            Claimable0(s) && NoReplay(s) && AllIdle(cfg, s) && s.jobs[0].attempts == a
    decreases a
  {
    var s0 := Init(cfg, clock);
    if a == 0 {
      steps := Arrive(cfg, clock);
    } else {
      steps := UseAttempts(cfg, clock, a - 1);
      var s := Exec(cfg, s0, steps);
      var b := Take(cfg, s, 0);
      ExecAppend(cfg, s0, steps, b);
      assert HoldsEarly(cfg, Exec(cfg, s, b).workers[0]);
      var c := RefuseAndRetry(cfg, Exec(cfg, s, b), 0);
      ExecAppend(cfg, s0, steps + b, c);
      steps := steps + b + c;
    }
  }

  /** The first k workers hold the job with a snapshot that has a retry left. */
  ghost predicate Gathered(cfg: Config, s: State, k: nat) {
    && NoReplay(s) && |s.workers| == cfg.workers && k <= cfg.workers
    && (forall w :: 0 <= w < k ==> HoldsEarly(cfg, s.workers[w]))
  }

  ghost predicate RestIdle(cfg: Config, s: State, k: nat) {
    |s.workers| == cfg.workers && forall w :: k <= w < cfg.workers ==> s.workers[w].Idle?
  }

  lemma {:induction false} Gather(cfg: Config, clock: Time, k: nat) returns (steps: seq<Step>)
    requires ValidConfig(cfg) && cfg.retryMax >= 2 && k < cfg.workers
    ensures Executable(cfg, Init(cfg, clock), steps)
    ensures var s := Exec(cfg, Init(cfg, clock), steps);
            Claimable0(s) && Gathered(cfg, s, k) && RestIdle(cfg, s, k) && s.jobs[0].attempts == cfg.retryMax - 2
    decreases k
  {
    var s0 := Init(cfg, clock);
    if k == 0 {
      steps := UseAttempts(cfg, clock, cfg.retryMax - 2);
    } else {
      steps := Gather(cfg, clock, k - 1);
      var b := Join(cfg, Exec(cfg, s0, steps), k - 1);
      ExecAppend(cfg, s0, steps, b);
      var c := Expire(cfg, Exec(cfg, s0, steps + b));
      ExecAppend(cfg, s0, steps + b, c);
      steps := steps + b + c;
    }
  }

  /** Worker k joins the holders. */
  lemma Join(cfg: Config, s: State, k: nat) returns (steps: seq<Step>)
    requires cfg.claimLimit >= 1 && k < cfg.workers
    requires Claimable0(s) && Gathered(cfg, s, k) && RestIdle(cfg, s, k) && s.jobs[0].attempts == cfg.retryMax - 2
    ensures Executable(cfg, s, steps)
    ensures var s' := Exec(cfg, s, steps);
            && Leased0(s') && s'.jobs[0].attempts == cfg.retryMax - 2
            && Gathered(cfg, s', k + 1) && RestIdle(cfg, s', k + 1)
  {
    steps := Take(cfg, s, k);
    assert HoldsEarly(cfg, Exec(cfg, s, steps).workers[k]);
  }

  /** The early holders mark one after the other, each closing a fresh lease taken by the one before. */
  lemma {:induction false} Burn(cfg: Config, s: State, k: nat) returns (steps: seq<Step>)
    requires cfg.claimLimit >= 1 && k >= 1 && Leased0(s) && Gathered(cfg, s, k)
    ensures Executable(cfg, s, steps)
    ensures var s' := Exec(cfg, s, steps);
            && NoReplay(s') && s'.jobs[0].status.Retry? && s'.jobs[0].attempts == s.jobs[0].attempts + k
            && Claimable0(s') && |s'.workers| > 0 && s'.workers[0].Idle?
    decreases k
  {
    steps := RefuseAndRetry(cfg, s, k - 1);
    var s1 := Exec(cfg, s, steps);
    if k > 1 {
      var b := Take(cfg, s1, k - 1);
      ExecAppend(cfg, s, steps, b);
      assert Gathered(cfg, Exec(cfg, s1, b), k - 1);
      var c := Burn(cfg, Exec(cfg, s, steps + b), k - 1);
      ExecAppend(cfg, s, steps + b, c);
      steps := steps + b + c;
    }
  }

  /**
   For every configuration with a retry to give, there is a run without any replay in which a job still waiting
   for retry has used exactly the attempts RetryBudget allows.
   */
  lemma RetryBudgetExact(cfg: Config, clock: Time) returns (steps: seq<Step>)
    requires ValidConfig(cfg) && cfg.retryMax >= 2
    ensures Executable(cfg, Init(cfg, clock), steps)
    ensures var s := Exec(cfg, Init(cfg, clock), steps);
            && NoReplay(s) && s.jobs[0].status.Retry? && s.jobs[0].attempts == AttemptCap(cfg)
            && Claimable0(s) && |s.workers| > 0 && s.workers[0].Idle?
  {
    var s0 := Init(cfg, clock);
    steps := Gather(cfg, clock, cfg.workers - 1);
    var b := Join(cfg, Exec(cfg, s0, steps), cfg.workers - 1);
    ExecAppend(cfg, s0, steps, b);
    var c := Burn(cfg, Exec(cfg, s0, steps + b), cfg.workers);
    ExecAppend(cfg, s0, steps + b, c);
    steps := steps + b + c;
  }

  /** One more delivery of that job gives a sent job with exactly the attempts RetryBudget allows a finished one. */
  lemma FinishedBudgetExact(cfg: Config, clock: Time) returns (steps: seq<Step>)
    requires ValidConfig(cfg) && cfg.retryMax >= 2
    ensures Executable(cfg, Init(cfg, clock), steps)
    ensures var s := Exec(cfg, Init(cfg, clock), steps);
            NoReplay(s) && s.jobs[0].status.Sent? && s.jobs[0].attempts == AttemptCap(cfg) + 1
  {
    var s0 := Init(cfg, clock);
    steps := RetryBudgetExact(cfg, clock);
    var b := Take(cfg, Exec(cfg, s0, steps), 0);
    ExecAppend(cfg, s0, steps, b);
    var c := AcceptAndMark(cfg, Exec(cfg, s0, steps + b), 0);
    ExecAppend(cfg, s0, steps + b, c);
    steps := steps + b + c;
  }

  lemma AcceptAndMark(cfg: Config, s: State, w: nat) returns (steps: seq<Step>)
    requires Leased0(s) && w < |s.workers| && s.workers[w].Claimed? && s.workers[w].batch == [Job(0, s.jobs[0])]
    ensures FriendlyRun(cfg, s, steps) && (forall step :: step in steps ==> !step.Claim?)
    ensures var s' := Exec(cfg, s, steps);
            && Solo(s') && s'.jobs[0].status.Sent? && s'.jobs[0].attempts == s.jobs[0].attempts + 1
            && s'.ledger[0].replays == s.ledger[0].replays && s'.ledger[0].requeues == s.ledger[0].requeues
            && s'.ledger[0].lostAcks == s.ledger[0].lostAcks
            && AcceptedCount(s'.sends, 0) == AcceptedCount(s.sends, 0) + 1
  {
    steps := [SendOk(w, ""), StoreSent(w, s.clock, true)];
    assert s.workers[w].batch[0].id == 0;
    ExecTwo(cfg, s, steps[0], steps[1]);
    CountAppend(s.sends, Send(w, s.workers[w].batch, Accepted("")), 0);
  }

  /** The call fails for good, the job becomes a dead letter and is replayed. */
  lemma BuryAndReplay(cfg: Config, s: State, w: nat) returns (steps: seq<Step>)
    requires Leased0(s) && w < |s.workers| && s.workers[w].Claimed? && s.workers[w].batch == [Job(0, s.jobs[0])]
    ensures Executable(cfg, s, steps)
    ensures var s' := Exec(cfg, s, steps);
            && Claimable0(s') && s'.workers == s.workers[w := Idle]
            && s'.jobs[0].attempts == s.jobs[0].attempts + 1
            && s'.ledger[0].replays == s.ledger[0].replays + 1
  {
    steps := Bury(cfg, s, w);
    ExecOne(cfg, Exec(cfg, s, steps), Replay([0], s.clock));
    ExecAppend(cfg, s, steps, [Replay([0], s.clock)]);
    steps := steps + [Replay([0], s.clock)];
  }

  lemma Bury(cfg: Config, s: State, w: nat) returns (steps: seq<Step>)
    requires Leased0(s) && w < |s.workers| && s.workers[w].Claimed? && s.workers[w].batch == [Job(0, s.jobs[0])]
    ensures Executable(cfg, s, steps)
    ensures var s' := Exec(cfg, s, steps);
            && Solo(s') && s'.clock == s.clock && s'.workers == s.workers[w := Idle] && s'.ledger == s.ledger
            && s'.jobs[0].status.Dlq? && s'.jobs[0].attempts == s.jobs[0].attempts + 1
  {
    steps := [SendFail(w, 400, ""), StoreDlq(w, s.clock, true)];
    assert s.workers[w].batch[0].id == 0;
    ExecTwo(cfg, s, steps[0], steps[1]);
  }

  ghost predicate AtCap(cfg: Config, s: State, r: nat) {
    && Claimable0(s) && |s.workers| > 0 && s.workers[0].Idle?
    && s.ledger[0].replays == r && s.jobs[0].attempts == AttemptCap(cfg) + r
  }

  /**
   For every configuration and every number of replays, some run leaves an unfinished job with exactly the attempts
   RetryBudget allows; with a single replay that is already at or past the retry limit.
   */
  lemma {:induction false} ReplayBudgetExact(cfg: Config, clock: Time, r: nat) returns (steps: seq<Step>)
    requires ValidConfig(cfg)
    ensures Executable(cfg, Init(cfg, clock), steps) && AtCap(cfg, Exec(cfg, Init(cfg, clock), steps), r)
    ensures r >= 1 ==> Exec(cfg, Init(cfg, clock), steps).jobs[0].attempts >= cfg.retryMax
    decreases r
  {
    var s0 := Init(cfg, clock);
    if r > 0 {
      steps := ReplayBudgetExact(cfg, clock, r - 1);
      var b := Take(cfg, Exec(cfg, s0, steps), 0);
      ExecAppend(cfg, s0, steps, b);
      var c := BuryAndReplay(cfg, Exec(cfg, s0, steps + b), 0);
      ExecAppend(cfg, s0, steps + b, c);
      steps := steps + b + c;
    } else if cfg.retryMax >= 2 {
      steps := RetryBudgetExact(cfg, clock);
    } else {
      steps := Arrive(cfg, clock);
    }
  }

  /** In every run without replays, an unfinished job has tries left. */
  ghost predicate AlwaysBelowLimit(cfg: Config) {
    forall clock: Time, steps: seq<Step>, id: JobId ::
      Executable(cfg, Init(cfg, clock), steps) ==> BelowLimit(cfg, Exec(cfg, Init(cfg, clock), steps), id)
  }

  ghost predicate BelowLimit(cfg: Config, s: State, id: JobId) {
    id in s.jobs && id in s.ledger && s.ledger[id].replays == 0 && !s.jobs[id].status.Finished() ==>
      s.jobs[id].attempts < cfg.retryMax
  }

  /** "An unfinished job is below the retry limit" holds exactly for one worker, or when nothing is ever retried. */
  lemma BelowLimitIff(cfg: Config)
    requires ValidConfig(cfg)
    ensures AlwaysBelowLimit(cfg) <==> cfg.workers == 1 || cfg.retryMax == 1
  {
    if cfg.workers == 1 || cfg.retryMax == 1 {
      forall clock: Time, steps: seq<Step>, id: JobId | Executable(cfg, Init(cfg, clock), steps)
        ensures BelowLimit(cfg, Exec(cfg, Init(cfg, clock), steps), id)
      {
        if id in Exec(cfg, Init(cfg, clock), steps).jobs {
          RetryBudget(cfg, clock, steps, id);
        }
      }
    } else {
      var steps := RetryBudgetExact(cfg, 0);
      assert !BelowLimit(cfg, Exec(cfg, Init(cfg, 0), steps), 0);
    }
  }

  // ----- Draining

  lemma {:induction false} ClaimsAppend(cfg: Config, s: State, a: seq<Step>, b: seq<Step>)
    requires FriendlyRun(cfg, s, a) && FriendlyRun(cfg, Exec(cfg, s, a), b)
    ensures FriendlyRun(cfg, s, a + b) && Exec(cfg, s, a + b) == Exec(cfg, Exec(cfg, s, a), b)
    ensures Claims(cfg, s, a + b) == Claims(cfg, s, a) + Claims(cfg, Exec(cfg, s, a), b)
    decreases |a|
  {
    if a == [] {
      assert a + b == b;
    } else {
      var t := Apply(cfg, s, a[0]);
      ClaimsAppend(cfg, t, a[1..], b);
      ClaimsCons(cfg, s, a[0], a[1..], t);
      ClaimsCons(cfg, s, a[0], a[1..] + b, t);
      assert [a[0]] + a[1..] == a && [a[0]] + (a[1..] + b) == a + b;
    }
  }

  lemma ClaimsCons(cfg: Config, s: State, step: Step, rest: seq<Step>, t: State)
    requires Enabled(cfg, s, step) && t == Apply(cfg, s, step) && Executable(cfg, t, rest)
    ensures Executable(cfg, s, [step] + rest) && Exec(cfg, s, [step] + rest) == Exec(cfg, t, rest)
    ensures Claims(cfg, s, [step] + rest) == Bit(Takes(cfg, s, step)) + Claims(cfg, t, rest)
  {
    ExecCons(cfg, s, step, rest);
    assert ([step] + rest)[1..] == rest;
  }

  lemma {:induction false} NoClaims(cfg: Config, s: State, steps: seq<Step>)
    requires Executable(cfg, s, steps) && forall step :: step in steps ==> !step.Claim?
    ensures Claims(cfg, s, steps) == 0
    decreases |steps|
  {
    if steps != [] {
      assert steps[0] in steps;
      NoClaims(cfg, Apply(cfg, s, steps[0]), steps[1..]);
    }
  }

  /** A worker refused with the one job aboard, which its snapshot still lets it retry. */
  ghost predicate RefusedEarly(cfg: Config, p: Phase) {
    p.Refused? && p.code == 500 && |p.batch| == 1 && p.batch[0].id == 0 && HasRetryLeft(p.batch[0], cfg.retryMax)
  }

  /** The first k workers were refused, the next one is free, and the job waits. */
  ghost predicate Caught(cfg: Config, s: State, k: nat) {
    && Claimable0(s) && k < |s.workers| && s.workers[k].Idle?
    && (forall w :: 0 <= w < k ==> RefusedEarly(cfg, s.workers[w]))
  }

  lemma RefuseEarly(cfg: Config, s: State, w: nat) returns (s': State)
    requires w < |s.workers| && HoldsEarly(cfg, s.workers[w])
    ensures Executable(cfg, s, [SendFail(w, 500, "")]) && s' == Exec(cfg, s, [SendFail(w, 500, "")])
    ensures s'.clock == s.clock && s'.jobs == s.jobs && s'.ledger == s.ledger
    ensures |s'.workers| == |s.workers| && s'.workers == s.workers[w := s'.workers[w]]
    ensures RefusedEarly(cfg, s'.workers[w])
  {
    ExecOne(cfg, s, SendFail(w, 500, ""));
    s' := Apply(cfg, s, SendFail(w, 500, ""));
  }

  /** The last k of the first n holders are refused. */
  lemma {:induction false} RefuseFirst(cfg: Config, s: State, k: nat, n: nat) returns (steps: seq<Step>)
    requires Claimable0(s) && k <= n < |s.workers| && s.workers[n].Idle?
    requires forall w :: 0 <= w < k ==> HoldsEarly(cfg, s.workers[w])
    requires forall w :: k <= w < n ==> RefusedEarly(cfg, s.workers[w])
    ensures Executable(cfg, s, steps) && Caught(cfg, Exec(cfg, s, steps), n)
    ensures |Exec(cfg, s, steps).workers| == |s.workers|
    decreases k
  {
    if k == 0 {
      steps := [];
    } else {
      var s' := RefuseEarly(cfg, s, k - 1);
      var rest := RefuseFirst(cfg, s', k - 1, n);
      ExecAppend(cfg, s, [SendFail(k - 1, 500, "")], rest);
      steps := [SendFail(k - 1, 500, "")] + rest;
    }
  }

  /** A worker refused earlier marks for retry and so takes the job from the worker that has it now. */
  lemma LateRetry(cfg: Config, s: State, w: nat) returns (steps: seq<Step>, s': State)
    requires Leased0(s) && w < |s.workers| && RefusedEarly(cfg, s.workers[w])
    ensures FriendlyRun(cfg, s, steps) && s' == Exec(cfg, s, steps) && (forall step :: step in steps ==> !step.Claim?)
    ensures Claimable0(s') && s'.workers == s.workers[w := Idle]
  {
    var job := s.workers[w].batch[0];
    assert s.workers[w].batch == [job];
    SplitOne(job, cfg.retryMax);
    BackoffWindow(job.row.attempts + 1, 1.0);
    var s1 := LastRetry(cfg, s, w, s.clock, 1.0, true);
    assert job in [job];
    s' := Apply(cfg, s1, Tick(MAX_BACKOFF));
    steps := [StoreRetry(w, s.clock, 1.0, true), Tick(MAX_BACKOFF)];
    ExecTwo(cfg, s, steps[0], steps[1]);
  }

  /** One claim in vain: a late retry mark puts the job back before its new holder can mark it sent. */
  lemma VainClaim(cfg: Config, s: State, k: nat) returns (steps: seq<Step>)
    requires cfg.claimLimit >= 1 && k >= 1 && Caught(cfg, s, k)
    ensures FriendlyRun(cfg, s, steps) && Claims(cfg, s, steps) == 1 && Caught(cfg, Exec(cfg, s, steps), k - 1)
  {
    var a := Take(cfg, s, k);
    var s1 := Exec(cfg, s, a);
    var b, s2 := LateRetry(cfg, s1, k - 1);
    NoClaims(cfg, s1, b);
    ClaimsAppend(cfg, s, a, b);
    assert s2.workers[k].batch[0].id == 0;
    var c := MarkTooLate(cfg, s2, k);
    NoClaims(cfg, s2, c);
    ClaimsAppend(cfg, s, a + b, c);
    steps := a + b + c;
  }

  lemma {:induction false} VainClaims(cfg: Config, s: State, k: nat) returns (steps: seq<Step>)
    requires cfg.claimLimit >= 1 && Caught(cfg, s, k)
    ensures FriendlyRun(cfg, s, steps) && Claims(cfg, s, steps) == k + 1
    decreases k
  {
    if k == 0 {
      steps := Take(cfg, s, 0);
    } else {
      var head := VainClaim(cfg, s, k);
      var rest := VainClaims(cfg, Exec(cfg, s, head), k - 1);
      ClaimsAppend(cfg, s, head, rest);
      steps := head + rest;
    }
  }

  lemma {:induction false} OnesThenZeros(workers: seq<Phase>, k: nat, f: Phase -> nat)
    requires k <= |workers| && (forall w :: 0 <= w < k ==> f(workers[w]) == 1)
    requires forall w :: k <= w < |workers| ==> f(workers[w]) == 0
    ensures PhaseSum(workers, f) == k
  {
    if workers != [] {
      OnesThenZeros(workers[1..], if k == 0 then 0 else k - 1, f);
    }
  }

  lemma CaughtBound(cfg: Config, s: State, k: nat)
    requires Caught(cfg, s, k) && |s.workers| == k + 1
    ensures |Unfinished(s.jobs)| + PhaseSum(s.workers, Returns(cfg)) == k + 1
  {
    forall w | 0 <= w < k ensures Returns(cfg)(s.workers[w]) == 1 {
      var job := s.workers[w].batch[0];
      assert s.workers[w].batch == [job];
      SplitOne(job, cfg.retryMax);
    }
    OnesThenZeros(s.workers, k, Returns(cfg));
    assert Unfinished(s.jobs) == {0};
  }

  lemma StayCaught(cfg: Config, s: State, now: Time, k: nat)
    requires Caught(cfg, s, k) && now >= s.clock
    ensures Executable(cfg, s, Recovery(s, now)) && Caught(cfg, Exec(cfg, s, Recovery(s, now)), k)
  {
    ExecTwo(cfg, s, Tick(now - s.clock), RequeueStale(now));
  }

  /** All workers but the last are refused with the one job aboard, which waits again. */
  lemma CatchAll(cfg: Config, clock: Time) returns (run: seq<Step>)
    requires ValidConfig(cfg) && cfg.retryMax >= 2
    ensures Executable(cfg, Init(cfg, clock), run)
    ensures var s := Exec(cfg, Init(cfg, clock), run); Caught(cfg, s, cfg.workers - 1) && |s.workers| == cfg.workers
  {
    run := Gather(cfg, clock, cfg.workers - 1);
    var b := RefuseFirst(cfg, Exec(cfg, Init(cfg, clock), run), cfg.workers - 1, cfg.workers - 1);
    ExecAppend(cfg, Init(cfg, clock), run, b);
    run := run + b;
  }

  /**
   For every configuration with a retry to give, some reachable state, after its recovery, has a run of accepted calls
   and committed marks with exactly as many claims as DrainFromAnywhere allows: one job, claimed once per worker.
   */
  lemma DrainBoundExact(cfg: Config, clock: Time) returns (run: seq<Step>, now: Time, steps: seq<Step>)
    requires ValidConfig(cfg) && cfg.retryMax >= 2
    ensures Executable(cfg, Init(cfg, clock), run)
    ensures var s := Exec(cfg, Init(cfg, clock), run);
            && now > s.clock + MAX_BACKOFF + cfg.lease && Executable(cfg, s, Recovery(s, now))
            && var t := Exec(cfg, s, Recovery(s, now));
            && FriendlyRun(cfg, t, steps)
            && Claims(cfg, t, steps) == |Unfinished(s.jobs)| + PhaseSum(s.workers, Returns(cfg)) == cfg.workers
  {
    run := CatchAll(cfg, clock);
    var s := Exec(cfg, Init(cfg, clock), run);
    now := s.clock + MAX_BACKOFF + cfg.lease + 1;
    StayCaught(cfg, s, now, cfg.workers - 1);
    CaughtBound(cfg, s, cfg.workers - 1);
    steps := VainClaims(cfg, Exec(cfg, s, Recovery(s, now)), cfg.workers - 1);
  }

  /** Without timely marking, two workers can hold the same job at once. */
  lemma HoldersCanOverlap(cfg: Config, clock: Time) returns (steps: seq<Step>)
    requires ValidConfig(cfg) && cfg.workers >= 2
    ensures Executable(cfg, Init(cfg, clock), steps)
    ensures var s := Exec(cfg, Init(cfg, clock), steps);
            |s.workers| >= 2 && Carries(BatchOf(s.workers[0]), 0) && Carries(BatchOf(s.workers[1]), 0) && !HeldApart(s)
  {
    var s0 := Init(cfg, clock);
    var a := Arrive(cfg, clock);
    var b := Take(cfg, Exec(cfg, s0, a), 0);
    ExecAppend(cfg, s0, a, b);
    var c := Expire(cfg, Exec(cfg, s0, a + b));
    ExecAppend(cfg, s0, a + b, c);
    var d := Take(cfg, Exec(cfg, s0, a + b + c), 1);
    ExecAppend(cfg, s0, a + b + c, d);
    var s := Exec(cfg, s0, a + b + c + d);
    var first, second := s.workers[0].batch[0], s.workers[1].batch[0];
    assert first in BatchOf(s.workers[0]) && second in BatchOf(s.workers[1]) && first.id == second.id == 0;
    assert HeldBy(s, 0, 0) && HeldBy(s, 1, 0);
    steps := a + b + c + d;
  }
}
