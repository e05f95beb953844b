/** How long a job can be passed over, and how soon a refused job can be tried again. */
module Fairness {
  import opened Prelude
  import opened JobTable
  import opened Dispatch
  import opened Protocol
  import opened JobView
  import opened Simulation
  import opened Invariant
  import opened Delivery

  // ----- Runs without stale requeue or replay

  predicate Quiet(steps: seq<Step>) {
    forall step :: step in steps ==> !step.RequeueStale? && !step.Replay?
  }

  ghost predicate Undisturbed(s: State) {
    forall id :: id in s.ledger ==> s.ledger[id].requeues == 0 && s.ledger[id].replays == 0
  }

  lemma UndisturbedStep(cfg: Config, s: State, step: Step)
    requires Global(cfg, s) && Undisturbed(s) && Enabled(cfg, s, step) && !step.RequeueStale? && !step.Replay?
    ensures Undisturbed(Apply(cfg, s, step))
  {
    var s' := Apply(cfg, s, step);
    KeysStep(cfg, s, step);
    forall id | id in s'.ledger ensures s'.ledger[id].requeues == 0 && s'.ledger[id].replays == 0 {
      if id in s.jobs {
        Simulates(cfg, s, step, id);
        EntryStep(cfg, ViewOf(cfg, s, id), Project(cfg, s, step, id));
      } else {
        Arrival(cfg, s, step, id);
      }
    }
  }

  lemma EntryStep(cfg: Config, v: View, vs: ViewStep)
    requires ViewEnabled(cfg, v, vs) && !vs.VRequeue? && !vs.VReplay?
    ensures ViewApply(cfg, v, vs).entry.requeues == v.entry.requeues
    ensures ViewApply(cfg, v, vs).entry.replays == v.entry.replays
  {}

  lemma {:induction false} UndisturbedRun(cfg: Config, s: State, steps: seq<Step>)
    requires Global(cfg, s) && Undisturbed(s) && Executable(cfg, s, steps) && Quiet(steps)
    ensures Undisturbed(Exec(cfg, s, steps))
    decreases |steps|
  {
    if steps != [] {
      UndisturbedStep(cfg, s, steps[0]);
      GlobalStep(cfg, s, steps[0]);
      UndisturbedRun(cfg, Apply(cfg, s, steps[0]), steps[1..]);
    }
  }

  // ----- Bounded overtaking

  /** How often a row can still be claimed. */
  function ClaimsLeft(cfg: Config, r: Row): nat {
    var left := cfg.retryMax - r.attempts - (if r.status.Processing? then 1 else 0);
    if r.status.Finished() || left < 0 then 0 else left
  }

  lemma ClaimsLeftStep(cfg: Config, v: View, vs: ViewStep)
    requires ShapeInv(cfg, v) && QuietInv(cfg, v) && v.entry.requeues == 0 && v.entry.replays == 0
    requires ViewEnabled(cfg, v, vs) && !vs.VRequeue? && !vs.VReplay?
    ensures ClaimsLeft(cfg, ViewApply(cfg, v, vs).row) <= ClaimsLeft(cfg, v.row)
    ensures vs.VClaim? ==> ClaimsLeft(cfg, ViewApply(cfg, v, vs).row) < ClaimsLeft(cfg, v.row)
  {}

  /** A claim takes a batch without j although j is eligible. */
  ghost predicate PassesOver(cfg: Config, s: State, step: Step, j: JobId)
    requires Enabled(cfg, s, step)
  {
    step.Claim? && j in s.jobs && Claimable(s.jobs[j], step.now) && j !in Taken(cfg, s, step.order)
  }

  ghost function Overtakes(cfg: Config, s: State, steps: seq<Step>, j: JobId): nat
    requires Executable(cfg, s, steps)
    decreases |steps|
  {
    if steps == [] then 0
    else Bit(PassesOver(cfg, s, steps[0], j)) + Overtakes(cfg, Apply(cfg, s, steps[0]), steps[1..], j)
  }

  /** The claims left, seen from table t, for each other job of the final table that is not younger than j. */
  ghost function Allowance(cfg: Config, t: Table, final: Table, j: JobId): map<JobId, nat>
    requires j in final && cfg.retryMax >= 0
  {
    map k | k in final && k != j && final[k].createdAt <= final[j].createdAt ::
      LeftIn(cfg, t, k)
  }

  /** A job not enqueued yet has its whole retry limit. */
  function LeftIn(cfg: Config, t: Table, k: JobId): nat
    requires cfg.retryMax >= 0
  {
    if k in t then ClaimsLeft(cfg, t[k]) else cfg.retryMax
  }

  lemma RowLeftStep(cfg: Config, s: State, step: Step, k: JobId)
    requires Global(cfg, s) && k in s.jobs && ShapeInv(cfg, ViewOf(cfg, s, k)) && QuietInv(cfg, ViewOf(cfg, s, k))
    requires s.ledger[k].requeues == 0 && s.ledger[k].replays == 0
    requires Enabled(cfg, s, step) && !step.RequeueStale? && !step.Replay?
    ensures k in Apply(cfg, s, step).jobs && ClaimsLeft(cfg, Apply(cfg, s, step).jobs[k]) <= ClaimsLeft(cfg, s.jobs[k])
    ensures Project(cfg, s, step, k).VClaim? ==>
              ClaimsLeft(cfg, Apply(cfg, s, step).jobs[k]) < ClaimsLeft(cfg, s.jobs[k])
  {
    Simulates(cfg, s, step, k);
    ClaimsLeftStep(cfg, ViewOf(cfg, s, k), Project(cfg, s, step, k));
  }

  lemma LeftInStep(cfg: Config, s: State, step: Step, k: JobId)
    requires ValidConfig(cfg) && Inv(cfg, s) && Undisturbed(s)
    requires Enabled(cfg, s, step) && !step.RequeueStale? && !step.Replay?
    ensures LeftIn(cfg, Apply(cfg, s, step).jobs, k) <= LeftIn(cfg, s.jobs, k)
  {
    if k in s.jobs {
      assert ViewInv(cfg, ViewOf(cfg, s, k));
      RowLeftStep(cfg, s, step, k);
    } else if k in Apply(cfg, s, step).jobs {
      Arrival(cfg, s, step, k);
    }
  }

  lemma AllowanceStep(cfg: Config, s: State, step: Step, final: Table, j: JobId)
    requires ValidConfig(cfg) && Inv(cfg, s) && Undisturbed(s)
    requires Enabled(cfg, s, step) && !step.RequeueStale? && !step.Replay? && j in final
    ensures var a, a' := Allowance(cfg, s.jobs, final, j), Allowance(cfg, Apply(cfg, s, step).jobs, final, j);
            a.Keys == a'.Keys && forall k :: k in a ==> a'[k] <= a[k]
  {
    forall k | k in final ensures LeftIn(cfg, Apply(cfg, s, step).jobs, k) <= LeftIn(cfg, s.jobs, k) {
      LeftInStep(cfg, s, step, k);
    }
  }

  /** A claim that passes over j spends a claim of some job not younger than j. */
  lemma OvertakerPays(cfg: Config, s: State, step: Step, j: JobId) returns (k: JobId)
    requires ValidConfig(cfg) && Inv(cfg, s) && Undisturbed(s)
    requires Enabled(cfg, s, step) && PassesOver(cfg, s, step, j)
    ensures k in s.jobs && k != j && s.jobs[k].createdAt <= s.jobs[j].createdAt
    ensures k in Apply(cfg, s, step).jobs && ClaimsLeft(cfg, Apply(cfg, s, step).jobs[k]) < ClaimsLeft(cfg, s.jobs[k])
  {
    var ids := Taken(cfg, s, step.order);
    assert j in step.order;
    k := ids[0];
    assert k == step.order[0];
    var q :| 0 <= q < |step.order| && step.order[q] == j;
    assert ViewInv(cfg, ViewOf(cfg, s, k));
    RowLeftStep(cfg, s, step, k);
  }

  lemma OvertakeStep(cfg: Config, s: State, step: Step, final: Table, j: JobId)
    requires ValidConfig(cfg) && Inv(cfg, s) && Undisturbed(s)
    requires Enabled(cfg, s, step) && !step.RequeueStale? && !step.Replay?
    requires j in s.jobs && AllLater(s.jobs, final)
    ensures Total(Allowance(cfg, Apply(cfg, s, step).jobs, final, j)) + Bit(PassesOver(cfg, s, step, j))
         <= Total(Allowance(cfg, s.jobs, final, j))
  {
    var a, a' := Allowance(cfg, s.jobs, final, j), Allowance(cfg, Apply(cfg, s, step).jobs, final, j);
    AllowanceStep(cfg, s, step, final, j);
    if PassesOver(cfg, s, step, j) {
      var k := OvertakerPays(cfg, s, step, j);
      assert k in final && j in final;
      TotalStrict(a', a, k);
    } else {
      TotalMonotone(a', a);
    }
  }

  lemma {:induction false} OvertakeRun(cfg: Config, s: State, steps: seq<Step>, j: JobId)
    requires ValidConfig(cfg) && Inv(cfg, s) && Undisturbed(s) && j in s.jobs
    requires Executable(cfg, s, steps) && Quiet(steps)
    ensures j in Exec(cfg, s, steps).jobs
    ensures Overtakes(cfg, s, steps, j) <= Total(Allowance(cfg, s.jobs, Exec(cfg, s, steps).jobs, j))
    decreases |steps|
  {
    NothingLost(cfg, s, steps);
    if steps != [] {
      var s' := Apply(cfg, s, steps[0]);
      RowsStep(cfg, s, steps[0]);
      InvStep(cfg, s, steps[0]);
      UndisturbedStep(cfg, s, steps[0]);
      OvertakeRun(cfg, s', steps[1..], j);
      OvertakeStep(cfg, s, steps[0], Exec(cfg, s, steps).jobs, j);
    }
  }

  /**
   In a run without stale requeue or replay, from any point on, the claims that pass over a job while it is
   eligible are at most the claims the other jobs not younger than it had left then, counting the whole retry
   limit for a job enqueued since.
   */
  lemma BoundedOvertaking(cfg: Config, clock: Time, before: seq<Step>, after: seq<Step>, j: JobId)
    requires ValidConfig(cfg) && Executable(cfg, Init(cfg, clock), before) && Quiet(before)
    requires Executable(cfg, Exec(cfg, Init(cfg, clock), before), after) && Quiet(after)
    requires j in Exec(cfg, Init(cfg, clock), before).jobs
    ensures var s := Exec(cfg, Init(cfg, clock), before);
            j in Exec(cfg, s, after).jobs
            && Overtakes(cfg, s, after, j) <= Total(Allowance(cfg, s.jobs, Exec(cfg, s, after).jobs, j))
  {
    InvInit(cfg, clock);
    Reachable(cfg, clock, before);
    UndisturbedRun(cfg, Init(cfg, clock), before);
    OvertakeRun(cfg, Exec(cfg, Init(cfg, clock), before), after, j);
  }

  // ----- Overtaking in runs of any kind

  /** The attempts counted and the leases requeued so far, and the lease running now. */
  function Settled(r: Row, e: Entry): nat {
    r.attempts + e.requeues + Bit(r.status.Processing?)
  }

  ghost function Paid(s: State, k: JobId): nat {
    if k in s.jobs && k in s.ledger then Settled(s.jobs[k], s.ledger[k]) else 0
  }

  lemma PaidStep(cfg: Config, v: View, vs: ViewStep)
    requires ViewEnabled(cfg, v, vs)
    ensures var v' := ViewApply(cfg, v, vs); Settled(v'.row, v'.entry) == Settled(v.row, v.entry) + Bit(vs.VClaim?)
  {}

  lemma ClaimPaid(cfg: Config, s: State, step: Step, k: JobId)
    requires Global(cfg, s) && Enabled(cfg, s, step) && k in s.jobs
    ensures k in Apply(cfg, s, step).jobs
    ensures Paid(Apply(cfg, s, step), k) == Paid(s, k) + Bit(Project(cfg, s, step, k).VClaim?)
  {
    Simulates(cfg, s, step, k);
    PaidStep(cfg, ViewOf(cfg, s, k), Project(cfg, s, step, k));
  }

  ghost function ClaimsOf(cfg: Config, s: State, steps: seq<Step>, k: JobId): nat
    requires Executable(cfg, s, steps)
    decreases |steps|
  {
    if steps == [] then 0
    else
      var claimed := k in s.jobs && Project(cfg, s, steps[0], k).VClaim?;
      Bit(claimed) + ClaimsOf(cfg, Apply(cfg, s, steps[0]), steps[1..], k)
  }

  /** Every claim of a job is settled once: by an attempt, by a stale requeue, or it is the lease running at the end. */
  lemma {:induction false} ClaimsSettled(cfg: Config, s: State, steps: seq<Step>, k: JobId)
    requires Global(cfg, s) && Executable(cfg, s, steps) && k in s.jobs
    ensures Paid(Exec(cfg, s, steps), k) == Paid(s, k) + ClaimsOf(cfg, s, steps, k)
    decreases |steps|
  {
    if steps != [] {
      ClaimPaid(cfg, s, steps[0], k);
      GlobalStep(cfg, s, steps[0]);
      ClaimsSettled(cfg, Apply(cfg, s, steps[0]), steps[1..], k);
    }
  }

  /** What was paid by then for each other job of the final table that is not younger than j. */
  ghost function Bill(s: State, final: Table, j: JobId): map<JobId, nat>
    requires j in final
  {
    map k | k in final && k != j && final[k].createdAt <= final[j].createdAt :: Paid(s, k)
  }

  /** A claim that passes over j takes the oldest eligible job, which is another one. */
  lemma OldestTaken(cfg: Config, s: State, step: Step, j: JobId) returns (k: JobId)
    requires cfg.claimLimit >= 1 && Enabled(cfg, s, step) && PassesOver(cfg, s, step, j)
    ensures k in s.jobs && k != j && s.jobs[k].createdAt <= s.jobs[j].createdAt
    ensures Project(cfg, s, step, k).VClaim?
  {
    var ids := Taken(cfg, s, step.order);
    assert j in step.order;
    k := ids[0];
    assert k == step.order[0];
    var q :| 0 <= q < |step.order| && step.order[q] == j;
  }

  lemma BillGrows(cfg: Config, s: State, step: Step, final: Table, j: JobId)
    requires Global(cfg, s) && Enabled(cfg, s, step) && j in final
    ensures var b, b' := Bill(s, final, j), Bill(Apply(cfg, s, step), final, j);
            b.Keys == b'.Keys && forall k :: k in b ==> b[k] <= b'[k]
  {
    forall k | k in final ensures Paid(s, k) <= Paid(Apply(cfg, s, step), k) {
      if k in s.jobs {
        ClaimPaid(cfg, s, step, k);
      }
    }
  }

  lemma BillStep(cfg: Config, s: State, step: Step, final: Table, j: JobId)
    requires cfg.claimLimit >= 1 && Global(cfg, s) && Enabled(cfg, s, step) && j in s.jobs && AllLater(s.jobs, final)
    ensures Total(Bill(s, final, j)) + Bit(PassesOver(cfg, s, step, j)) <= Total(Bill(Apply(cfg, s, step), final, j))
  {
    var b, b' := Bill(s, final, j), Bill(Apply(cfg, s, step), final, j);
    BillGrows(cfg, s, step, final, j);
    if PassesOver(cfg, s, step, j) {
      var k := OldestTaken(cfg, s, step, j);
      ClaimPaid(cfg, s, step, k);
      assert k in final && j in final;
      TotalStrict(b, b', k);
    } else {
      TotalMonotone(b, b');
    }
  }

  /** Every claim that passes over a job is paid by another job not younger than it. */
  lemma {:induction false} OvertakingPaid(cfg: Config, s: State, steps: seq<Step>, j: JobId)
    requires cfg.claimLimit >= 1 && Global(cfg, s) && Executable(cfg, s, steps) && j in s.jobs
    ensures j in Exec(cfg, s, steps).jobs
    ensures var end := Exec(cfg, s, steps);
            Total(Bill(s, end.jobs, j)) + Overtakes(cfg, s, steps, j) <= Total(Bill(end, end.jobs, j))
    decreases |steps|
  {
    NothingLost(cfg, s, steps);
    if steps != [] {
      RowsStep(cfg, s, steps[0]);
      GlobalStep(cfg, s, steps[0]);
      OvertakingPaid(cfg, Apply(cfg, s, steps[0]), steps[1..], j);
      BillStep(cfg, s, steps[0], Exec(cfg, s, steps).jobs, j);
    }
  }

  /** The most that can be paid for a job that was requeued and replayed this often. */
  ghost function Price(cfg: Config, e: Entry): nat
    requires ValidConfig(cfg)
  {
    AttemptCap(cfg) + 1 + e.replays + e.requeues
  }

  lemma PaidWithinPrice(cfg: Config, s: State, k: JobId)
    requires ValidConfig(cfg) && k in s.jobs && k in s.ledger && BudgetInv(cfg, ViewOf(cfg, s, k))
    ensures Paid(s, k) <= Price(cfg, s.ledger[k])
  {}

  /** The prices of the other jobs not younger than j. */
  ghost function Prices(cfg: Config, s: State, j: JobId): map<JobId, nat>
    requires ValidConfig(cfg) && j in s.jobs && s.ledger.Keys == s.jobs.Keys
  {
    map k | k in s.jobs && k != j && s.jobs[k].createdAt <= s.jobs[j].createdAt :: Price(cfg, s.ledger[k])
  }

  /**
   In every run whatever, from any point on: the claims that pass over a job while it is eligible are at most what the
   other jobs not younger than it can have been claimed in all, which is the attempt cap and one, plus one for each
   replay and each stale requeue.
   */
  lemma OvertakingBound(cfg: Config, clock: Time, before: seq<Step>, after: seq<Step>, j: JobId)
    requires ValidConfig(cfg) && Executable(cfg, Init(cfg, clock), before)
    requires Executable(cfg, Exec(cfg, Init(cfg, clock), before), after)
    requires j in Exec(cfg, Init(cfg, clock), before).jobs
    ensures var s := Exec(cfg, Init(cfg, clock), before);
            var end := Exec(cfg, s, after);
            && j in end.jobs && end.ledger.Keys == end.jobs.Keys
            && Overtakes(cfg, s, after, j) <= Total(Prices(cfg, end, j))
  {
    Reachable(cfg, clock, before);
    var s := Exec(cfg, Init(cfg, clock), before);
    InvRun(cfg, s, after);
    OvertakingPaid(cfg, s, after, j);
    var end := Exec(cfg, s, after);
    forall k | k in end.jobs ensures Paid(end, k) <= Price(cfg, end.ledger[k]) {
      assert ViewInv(cfg, ViewOf(cfg, end, k));
      PaidWithinPrice(cfg, end, k);
    }
    TotalMonotone(Bill(end, end.jobs, j), Prices(cfg, end, j));
  }

  // ----- Backoff

  /** No retry-now, and no claim takes j. */
  ghost predicate LeftAlone(cfg: Config, s: State, steps: seq<Step>, j: JobId)
    requires Executable(cfg, s, steps)
    decreases |steps|
  {
    steps != [] ==>
      && !steps[0].RetryNow?
      && (steps[0].Claim? ==> j !in Taken(cfg, s, steps[0].order))
      && LeftAlone(cfg, Apply(cfg, s, steps[0]), steps[1..], j)
  }

  lemma WaitingStep(cfg: Config, v: View, vs: ViewStep)
    requires ViewEnabled(cfg, v, vs) && v.row.status.Retry? && !vs.VClaim? && !vs.VRetryNow?
    ensures ViewApply(cfg, v, vs).row == v.row
  {}

  /** Whatever late markers, requeues and replays do, a waiting row is touched only by a claim or retry-now. */
  lemma {:induction false} WaitingRun(cfg: Config, s: State, steps: seq<Step>, j: JobId)
    requires Global(cfg, s) && Executable(cfg, s, steps) && LeftAlone(cfg, s, steps, j)
    requires j in s.jobs && s.jobs[j].status.Retry?
    ensures j in Exec(cfg, s, steps).jobs && Exec(cfg, s, steps).jobs[j] == s.jobs[j]
    decreases |steps|
  {
    if steps != [] {
      Simulates(cfg, s, steps[0], j);
      WaitingStep(cfg, ViewOf(cfg, s, j), Project(cfg, s, steps[0], j));
      GlobalStep(cfg, s, steps[0]);
      WaitingRun(cfg, Apply(cfg, s, steps[0]), steps[1..], j);
    }
  }

  /** All jobs of one retry mark become due together, after the backoff of the first of them. */
  lemma RetryDue(cfg: Config, s: State, w: nat, now: Time, jitter: real, j: JobId)
    requires Enabled(cfg, s, StoreRetry(w, now, jitter, true))
    requires j in s.jobs && s.jobs[j].status.Processing? && Carries(RetryJobs(s.workers[w].batch, cfg.retryMax), j)
    ensures var first := RetryJobs(s.workers[w].batch, cfg.retryMax)[0];
            var row := Apply(cfg, s, StoreRetry(w, now, jitter, true)).jobs[j];
            var base := BackoffBase(first.row.attempts + 1);
            && row.status.Retry? && row.attempts == s.jobs[j].attempts + 1
            && row.lastError == Some(s.workers[w].error) && row.lastHttpStatus == Some(s.workers[w].code)
            && row.nextAttemptAt == now + JitteredBackoff(first.row.attempts + 1, jitter)
            && 8 * base <= 10 * (row.nextAttemptAt - now) + 10 && 10 * (row.nextAttemptAt - now) <= 12 * base
            && row.nextAttemptAt >= now + MIN_BACKOFF
  {
    var retry, m := RetryApplied(cfg, s, w, now, jitter);
    BackoffWindow(retry[0].row.attempts + 1, jitter);
    MarkedRetry(s.jobs, retry, m, now, j);
  }

  lemma RetryApplied(cfg: Config, s: State, w: nat, now: Time, jitter: real) returns (retry: seq<Job>, m: Mark)
    requires Enabled(cfg, s, StoreRetry(w, now, jitter, true))
    ensures retry == RetryJobs(s.workers[w].batch, cfg.retryMax) && retry != []
    ensures m.MarkRetry? && m.nextAt == now + JitteredBackoff(retry[0].row.attempts + 1, jitter)
    ensures m.error == s.workers[w].error && m.http == s.workers[w].code
    ensures Apply(cfg, s, StoreRetry(w, now, jitter, true)).jobs == MarkTable(s.jobs, retry, m, now)
  {
    retry := RetryJobs(s.workers[w].batch, cfg.retryMax);
    m := RetryMark(s.workers[w], now, jitter, cfg.retryMax);
  }

  lemma MarkedRetry(t: Table, batch: seq<Job>, m: Mark, now: Time, j: JobId)
    requires j in t && t[j].status.Processing? && Carries(batch, j) && m.MarkRetry?
    ensures var row := MarkTable(t, batch, m, now)[j];
            && row.status.Retry? && row.attempts == t[j].attempts + 1 && row.nextAttemptAt == m.nextAt
            && row.lastError == Some(m.error) && row.lastHttpStatus == Some(m.http)
  {}

  /** A waiting job that is left alone is claimed no earlier than its due time. */
  lemma ClaimWaits(cfg: Config, s: State, steps: seq<Step>, j: JobId, next: Step)
    requires Global(cfg, s) && Executable(cfg, s, steps) && LeftAlone(cfg, s, steps, j)
    requires j in s.jobs && s.jobs[j].status.Retry?
    requires next.Claim? && Enabled(cfg, Exec(cfg, s, steps), next) && j in Taken(cfg, Exec(cfg, s, steps), next.order)
    ensures next.now >= s.jobs[j].nextAttemptAt
  {
    WaitingRun(cfg, s, steps, j);
    assert j in next.order;
  }

  /** The next claim of a job put back for retry comes at least 0.8 s after the decision, unless retry-now steps in. */
  lemma BackoffObserved(cfg: Config, s: State, w: nat, now: Time, jitter: real, steps: seq<Step>, j: JobId, next: Step)
    requires Global(cfg, s) && Enabled(cfg, s, StoreRetry(w, now, jitter, true))
    requires j in s.jobs && s.jobs[j].status.Processing? && Carries(RetryJobs(s.workers[w].batch, cfg.retryMax), j)
    requires var s1 := Apply(cfg, s, StoreRetry(w, now, jitter, true));
             && Executable(cfg, s1, steps) && LeftAlone(cfg, s1, steps, j)
             && next.Claim? && Enabled(cfg, Exec(cfg, s1, steps), next)
             && j in Taken(cfg, Exec(cfg, s1, steps), next.order)
    ensures next.now >= now + MIN_BACKOFF
  {
    RetryDue(cfg, s, w, now, jitter, j);
    GlobalStep(cfg, s, StoreRetry(w, now, jitter, true));
    KeysStep(cfg, s, StoreRetry(w, now, jitter, true));
    ClaimWaits(cfg, Apply(cfg, s, StoreRetry(w, now, jitter, true)), steps, j, next);
  }
}
