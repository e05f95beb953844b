/**
 The bound of Fairness.BoundedOvertaking is reached: when claims take one job at a time, every state without a running
 lease has a run in which a waiting job is passed over as often as the bound allows.
 */
module Overtaking {
  import opened Prelude
  import opened JobTable
  import opened BatchCut
  import opened Dispatch
  import opened Protocol
  import opened JobView
  import opened Simulation
  import opened Invariant
  import opened Drain
  import opened Fairness
  import opened Worker

  predicate OneAtATime(cfg: Config) {
    cfg.claimLimit == 1 || cfg.maxCount == 1
  }

  lemma TakesFirst(cfg: Config, s: State, order: seq<JobId>)
    requires ValidConfig(cfg) && OneAtATime(cfg) && order != [] && forall id :: id in order ==> id in s.jobs
    ensures Taken(cfg, s, order) == [order[0]]
  {
    var page := Page(order, cfg.claimLimit);
    var js := JobsAt(s.jobs, page);
    var c := CutLen(js, CountCap(cfg.maxCount), ByteCap(cfg.maxBytes));
    assert |js[..c]| == c == 1;
    assert page[..1] == [order[0]];
  }

  // ----- States in which every waiting job can still be claimed, and none is leased

  ghost predicate Lined(cfg: Config, s: State, j: JobId) {
    && s.ledger.Keys == s.jobs.Keys
    && s.workers != [] && s.workers[0].Idle?
    && j in s.jobs && s.jobs[j].status.Waiting()
    && (forall id :: id in s.jobs ==> LinedRow(cfg, s.jobs[id], s.clock))
  }

  predicate LinedRow(cfg: Config, r: Row, clock: Time) {
    && !r.status.Processing? && r.nextAttemptAt <= clock + MAX_BACKOFF
    && (r.status.Waiting() ==> r.attempts < cfg.retryMax)
  }

  lemma QuietLined(cfg: Config, s: State, j: JobId)
    requires ValidConfig(cfg) && Inv(cfg, s) && Undisturbed(s) && s.workers[0].Idle?
    requires j in s.jobs && s.jobs[j].status.Waiting()
    requires forall id :: id in s.jobs ==> !s.jobs[id].status.Processing?
    ensures Lined(cfg, s, j)
  {
    forall id | id in s.jobs ensures LinedRow(cfg, s.jobs[id], s.clock) {
      assert ViewInv(cfg, ViewOf(cfg, s, id));
      LinedView(cfg, ViewOf(cfg, s, id));
    }
  }

  lemma LinedView(cfg: Config, v: View)
    requires ShapeInv(cfg, v) && QuietInv(cfg, v) && v.entry.requeues == 0 && v.entry.replays == 0
    requires !v.row.status.Processing?
    ensures LinedRow(cfg, v.row, v.clock)
  {}

  // ----- The oldest other job goes first

  lemma {:induction false} PositiveEntry<K>(m: map<K, nat>) returns (k: K)
    requires Total(m) > 0
    ensures k in m && m[k] > 0
    decreases |m|
  {
    k :| k in m;
    TotalSplit(m, k);
    RemoveShrinks(m, k);
    if m[k] == 0 {
      k := PositiveEntry(m - {k});
    }
  }

  /** While j can be passed over, some other waiting job not younger than j can be listed first. */
  lemma OtherFirst(cfg: Config, s: State, j: JobId) returns (order: seq<JobId>)
    requires cfg.retryMax >= 0 && j in s.jobs && Total(Allowance(cfg, s.jobs, s.jobs, j)) > 0
    requires forall id :: id in s.jobs && s.jobs[id].status.Waiting() ==> s.jobs[id].nextAttemptAt <= s.clock
    requires forall id :: id in s.jobs ==> !s.jobs[id].status.Processing?
    ensures IsEligibleOrder(s.jobs, s.clock, order) && order != []
    ensures order[0] != j && s.jobs[order[0]].createdAt <= s.jobs[j].createdAt
  {
    var waiting := WaitingIds(s.jobs);
    var other := PositiveEntry(Allowance(cfg, s.jobs, s.jobs, j));
    var others := OldestFirst(s.jobs, waiting - {j});
    assert other in others;
    var k := others[0];
    var q :| 0 <= q < |others| && others[q] == other;
    assert s.jobs[k].createdAt <= s.jobs[other].createdAt;
    var rest := OldestFirst(s.jobs, waiting - {k});
    order := [k] + rest;
    assert k in others;
    FirstBeforeRest(s.jobs, others, k, j, rest);
  }

  lemma FirstBeforeRest(t: Table, others: seq<JobId>, k: JobId, j: JobId, rest: seq<JobId>)
    requires ByAge(t, others) && others != [] && k == others[0] && k in t && j in t && t[k].createdAt <= t[j].createdAt
    requires ByAge(t, rest) && forall id :: id in rest ==> id in t && (id == j || id in others)
    ensures ByAge(t, [k] + rest)
  {
    forall id | id in rest ensures t[k].createdAt <= t[id].createdAt {
      if id != j {
        var q :| 0 <= q < |others| && others[q] == id;
      }
    }
    var order := [k] + rest;
    forall a, b | 0 <= a < b < |order|
      ensures order[a] in t && order[b] in t && t[order[a]].createdAt <= t[order[b]].createdAt
    {
      assert order[b] == rest[b - 1] && rest[b - 1] in rest;
      if a > 0 {
        assert order[a] == rest[a - 1];
      }
    }
  }

  // ----- One claim passes over j

  /** The one job k has row r, a worker's clock has not moved, and everything else is as before. */
  ghost predicate OnlyRow(s: State, s': State, k: JobId, r: Row, p: Phase)
    requires s.workers != []
  {
    && s'.clock == s.clock && s'.jobs == s.jobs[k := r] && s'.ledger.Keys == s.ledger.Keys
    && s'.workers == s.workers[0 := p]
  }

  lemma ClaimFirst(cfg: Config, s: State, order: seq<JobId>) returns (step: Step, s': State)
    requires ValidConfig(cfg) && OneAtATime(cfg) && s.workers != [] && s.workers[0].Idle?
    requires order != [] && IsEligibleOrder(s.jobs, s.clock, order)
    ensures step.Claim? && step.order == order && step.now == s.clock
    ensures Enabled(cfg, s, step) && s' == Apply(cfg, s, step)
    ensures Taken(cfg, s, order) == [order[0]]
    ensures var k := order[0]; var r := ClaimRow(s.jobs[k], cfg.workerId, s.clock);
            OnlyRow(s, s', k, r, Claimed([Job(k, r)], s.clock))
  {
    var k := order[0];
    TakesFirst(cfg, s, order);
    assert k in order && k in [k];
    step := Claim(0, s.clock, order, [k]);
    s' := Apply(cfg, s, step);
    assert s'.workers[0].batch == [Job(k, s'.jobs[k])];
  }

  lemma MarkSingle(t: Table, job: Job, m: Mark, now: Time)
    requires job.id in t
    ensures MarkTable(t, [job], m, now) == t[job.id := MarkRow(t[job.id], m, now)]
  {
    assert job in [job];
  }

  /** The row of a refused job after its mark: one attempt more, due within the longest backoff, or a dead letter. */
  predicate RefusedRow(cfg: Config, r: Row, r': Row, now: Time) {
    && r'.createdAt == r.createdAt && r'.attempts == r.attempts + 1
    && (if r'.attempts < cfg.retryMax then r'.status.Retry? && r'.nextAttemptAt <= now + MAX_BACKOFF
        else r'.status.Dlq? && r'.nextAttemptAt == r.nextAttemptAt)
  }

  ghost predicate RefusedAlone(s: State, job: Job) {
    && s.workers != [] && s.workers[0].Refused? && s.workers[0].batch == [job]
    && s.workers[0].code == 500 && s.workers[0].error == ""
    && job.id in s.jobs && job.row == s.jobs[job.id] && job.row.status.Processing?
  }

  lemma RefusedToRetry(cfg: Config, s: State, job: Job) returns (s': State, r: Row)
    requires RefusedAlone(s, job) && HasRetryLeft(job, cfg.retryMax)
    ensures Enabled(cfg, s, StoreRetry(0, s.clock, 1.0, true)) && s' == Apply(cfg, s, StoreRetry(0, s.clock, 1.0, true))
    ensures OnlyRow(s, s', job.id, r, Idle) && RefusedRow(cfg, job.row, r, s.clock)
  {
    SplitOne(job, cfg.retryMax);
    BackoffWindow(job.row.attempts + 1, 1.0);
    s' := LastRetry(cfg, s, 0, s.clock, 1.0, true);
    var m := FirstRetry(cfg, [job], 500, "", s.clock, 1.0);
    MarkSingle(s.jobs, job, m, s.clock);
    r := MarkRow(job.row, m, s.clock);
  }

  lemma RefusedToDlq(cfg: Config, s: State, job: Job) returns (s': State, r: Row)
    requires RefusedAlone(s, job) && !HasRetryLeft(job, cfg.retryMax)
    ensures Enabled(cfg, s, StoreDlq(0, s.clock, true)) && s' == Apply(cfg, s, StoreDlq(0, s.clock, true))
    ensures OnlyRow(s, s', job.id, r, Idle) && RefusedRow(cfg, job.row, r, s.clock)
  {
    SplitOne(job, cfg.retryMax);
    s' := LastDlq(cfg, s, 0, s.clock, true);
    MarkSingle(s.jobs, job, MarkDlq("", 500), s.clock);
    r := MarkRow(job.row, MarkDlq("", 500), s.clock);
  }

  /** Worker 0 is refused with its one job and marks it for retry, or as a dead letter when the limit is spent. */
  lemma RefuseOne(cfg: Config, s: State, k: JobId) returns (steps: seq<Step>, s': State, r: Row)
    requires k in s.jobs && s.jobs[k].status.Processing?
    requires s.workers != [] && s.workers[0].Claimed? && s.workers[0].batch == [Job(k, s.jobs[k])]
    ensures Executable(cfg, s, steps) && s' == Exec(cfg, s, steps)
    ensures |steps| == 2 && steps[0].SendFail? && (steps[1].StoreRetry? || steps[1].StoreDlq?)
    ensures OnlyRow(s, s', k, r, Idle) && RefusedRow(cfg, s.jobs[k], r, s.clock)
  {
    var job, fail := Job(k, s.jobs[k]), SendFail(0, 500, "");
    var s1 := AfterFail(cfg, s, 0, 500, "");
    var mark: Step;
    if HasRetryLeft(job, cfg.retryMax) {
      mark := StoreRetry(0, s.clock, 1.0, true);
      s', r := RefusedToRetry(cfg, s1, job);
    } else {
      mark := StoreDlq(0, s.clock, true);
      s', r := RefusedToDlq(cfg, s1, job);
    }
    ExecTwo(cfg, s, fail, mark);
    steps := [fail, mark];
  }

  lemma {:induction false} OvertakesAppend(cfg: Config, s: State, a: seq<Step>, b: seq<Step>, j: JobId)
    requires Executable(cfg, s, a) && Executable(cfg, Exec(cfg, s, a), b)
    ensures Executable(cfg, s, a + b) && Exec(cfg, s, a + b) == Exec(cfg, Exec(cfg, s, a), b)
    ensures Overtakes(cfg, s, a + b, j) == Overtakes(cfg, s, a, j) + Overtakes(cfg, Exec(cfg, s, a), b, j)
    decreases |a|
  {
    if a == [] {
      assert a + b == b;
    } else {
      var t := Apply(cfg, s, a[0]);
      OvertakesAppend(cfg, t, a[1..], b, j);
      OvertakesCons(cfg, s, a[0], a[1..], t, j);
      OvertakesCons(cfg, s, a[0], a[1..] + b, t, j);
      assert [a[0]] + a[1..] == a && [a[0]] + (a[1..] + b) == a + b;
    }
  }

  lemma OvertakesCons(cfg: Config, s: State, step: Step, rest: seq<Step>, t: State, j: JobId)
    requires Enabled(cfg, s, step) && t == Apply(cfg, s, step) && Executable(cfg, t, rest)
    ensures Executable(cfg, s, [step] + rest) && Exec(cfg, s, [step] + rest) == Exec(cfg, t, rest)
    ensures Overtakes(cfg, s, [step] + rest, j) == Bit(PassesOver(cfg, s, step, j)) + Overtakes(cfg, t, rest, j)
  {
    ExecCons(cfg, s, step, rest);
    assert ([step] + rest)[1..] == rest;
  }

  lemma {:induction false} NoClaimNoOvertake(cfg: Config, s: State, steps: seq<Step>, j: JobId)
    requires Executable(cfg, s, steps) && forall step :: step in steps ==> !step.Claim?
    ensures Overtakes(cfg, s, steps, j) == 0
    decreases |steps|
  {
    if steps != [] {
      assert steps[0] in steps;
      NoClaimNoOvertake(cfg, Apply(cfg, s, steps[0]), steps[1..], j);
    }
  }

  lemma OvertakesOne(cfg: Config, s: State, step: Step, j: JobId)
    requires Enabled(cfg, s, step)
    ensures Executable(cfg, s, [step]) && Exec(cfg, s, [step]) == Apply(cfg, s, step)
    ensures Overtakes(cfg, s, [step], j) == Bit(PassesOver(cfg, s, step, j))
  {
    ExecOne(cfg, s, step);
  }

  /** Row k lost one of its claims; every other row, and the age of row k, is as before. */
  ghost predicate OneClaimLess(cfg: Config, t: Table, t': Table, k: JobId) {
    && k in t && k in t' && t'[k].createdAt == t[k].createdAt && ClaimsLeft(cfg, t'[k]) + 1 == ClaimsLeft(cfg, t[k])
    && t' == t[k := t'[k]]
  }

  lemma AllowanceLess(cfg: Config, t: Table, t': Table, k: JobId, j: JobId)
    requires cfg.retryMax >= 0 && j in t && j in t' && k != j && OneClaimLess(cfg, t, t', k)
    requires t[k].createdAt <= t[j].createdAt
    ensures Total(Allowance(cfg, t', t', j)) + 1 == Total(Allowance(cfg, t, t, j))
  {
    var a, a' := Allowance(cfg, t, t, j), Allowance(cfg, t', t', j);
    assert a' == a[k := ClaimsLeft(cfg, t'[k])];
    TotalUpdate(a, k, ClaimsLeft(cfg, t'[k]));
  }

  /** The oldest other job is claimed while j waits, refused, and marked. */
  lemma PassFirst(cfg: Config, s: State, j: JobId, order: seq<JobId>) returns (steps: seq<Step>, s': State)
    requires ValidConfig(cfg) && OneAtATime(cfg) && Lined(cfg, s, j) && Claimable(s.jobs[j], s.clock)
    requires IsEligibleOrder(s.jobs, s.clock, order) && order != [] && order[0] != j
    ensures Executable(cfg, s, steps) && s' == Exec(cfg, s, steps) && Quiet(steps) && Overtakes(cfg, s, steps, j) == 1
    ensures Lined(cfg, s', j) && OneClaimLess(cfg, s.jobs, s'.jobs, order[0])
  {
    var k := order[0];
    assert k in order;
    assert LinedRow(cfg, s.jobs[k], s.clock);
    var claim, s1 := ClaimFirst(cfg, s, order);
    var mark, s2, r := RefuseOne(cfg, s1, k);
    PassedOnce(cfg, s, claim, s1, mark, j);
    steps, s' := [claim] + mark, s2;
    TurnDone(cfg, s, s1, s2, k, j, r);
  }

  lemma PassedOnce(cfg: Config, s: State, claim: Step, s1: State, mark: seq<Step>, j: JobId)
    requires Enabled(cfg, s, claim) && s1 == Apply(cfg, s, claim) && PassesOver(cfg, s, claim, j)
    requires Executable(cfg, s1, mark) && |mark| == 2 && mark[0].SendFail? && (mark[1].StoreRetry? || mark[1].StoreDlq?)
    ensures Executable(cfg, s, [claim] + mark) && Exec(cfg, s, [claim] + mark) == Exec(cfg, s1, mark)
    ensures Overtakes(cfg, s, [claim] + mark, j) == 1 && Quiet([claim] + mark)
  {
    OvertakesOne(cfg, s, claim, j);
    NoClaimNoOvertake(cfg, s1, mark, j);
    OvertakesAppend(cfg, s, [claim], mark, j);
  }

  /** After a claim and a refusal worker 0 is free again, and one claim of the job is used up. */
  lemma TurnDone(cfg: Config, s: State, s1: State, s2: State, k: JobId, j: JobId, r: Row)
    requires Lined(cfg, s, j) && k in s.jobs && k != j
    requires s.jobs[k].status.Waiting() && LinedRow(cfg, s.jobs[k], s.clock)
    requires var c := ClaimRow(s.jobs[k], cfg.workerId, s.clock); OnlyRow(s, s1, k, c, Claimed([Job(k, c)], s.clock))
    requires s1.workers != [] && OnlyRow(s1, s2, k, r, Idle)
    requires RefusedRow(cfg, ClaimRow(s.jobs[k], cfg.workerId, s.clock), r, s.clock)
    ensures Lined(cfg, s2, j) && OneClaimLess(cfg, s.jobs, s2.jobs, k)
  {
    assert s2.jobs == s.jobs[k := r] && s2.workers == s.workers;
    forall id | id in s2.jobs ensures LinedRow(cfg, s2.jobs[id], s2.clock) {
      assert id != k ==> LinedRow(cfg, s.jobs[id], s.clock);
    }
  }

  /** And before that, whatever waits becomes due. */
  lemma PassOnce(cfg: Config, s: State, j: JobId) returns (steps: seq<Step>, s': State, k: JobId)
    requires ValidConfig(cfg) && OneAtATime(cfg) && Lined(cfg, s, j) && Total(Allowance(cfg, s.jobs, s.jobs, j)) > 0
    ensures Executable(cfg, s, steps) && s' == Exec(cfg, s, steps) && Quiet(steps) && Overtakes(cfg, s, steps, j) == 1
    ensures Lined(cfg, s', j) && OneClaimLess(cfg, s.jobs, s'.jobs, k)
    ensures k != j && s.jobs[k].createdAt <= s.jobs[j].createdAt
  {
    var tick := Tick(MAX_BACKOFF);
    var s1 := Apply(cfg, s, tick);
    OvertakesOne(cfg, s, tick, j);
    DueAfterBackoff(cfg, s, s1, j);
    var order := OtherFirst(cfg, s1, j);
    k := order[0];
    var pass, s2 := PassFirst(cfg, s1, j, order);
    OvertakesAppend(cfg, s, [tick], pass, j);
    steps, s' := [tick] + pass, s2;
  }

  lemma DueAfterBackoff(cfg: Config, s: State, s': State, j: JobId)
    requires Lined(cfg, s, j) && s' == s.(clock := s.clock + MAX_BACKOFF)
    ensures Lined(cfg, s', j) && Claimable(s'.jobs[j], s'.clock)
    ensures forall id :: id in s'.jobs && s'.jobs[id].status.Waiting() ==> s'.jobs[id].nextAttemptAt <= s'.clock
    ensures forall id :: id in s'.jobs ==> !s'.jobs[id].status.Processing?
  {
    forall id | id in s'.jobs
      ensures LinedRow(cfg, s'.jobs[id], s'.clock) && s'.jobs[id].nextAttemptAt <= s'.clock
      ensures !s'.jobs[id].status.Processing?
    {
      assert LinedRow(cfg, s.jobs[id], s.clock);
    }
  }

  // ----- Until nothing is left

  ghost predicate SameAges(t: Table, t': Table) {
    t'.Keys == t.Keys && forall id :: id in t ==> t'[id].createdAt == t[id].createdAt
  }

  lemma {:induction false} Exhaust(cfg: Config, s: State, j: JobId) returns (steps: seq<Step>)
    requires ValidConfig(cfg) && OneAtATime(cfg) && Lined(cfg, s, j)
    ensures Executable(cfg, s, steps) && Quiet(steps) && SameAges(s.jobs, Exec(cfg, s, steps).jobs)
    ensures Overtakes(cfg, s, steps, j) == Total(Allowance(cfg, s.jobs, s.jobs, j))
    decreases Total(Allowance(cfg, s.jobs, s.jobs, j))
  {
    if Total(Allowance(cfg, s.jobs, s.jobs, j)) == 0 {
      steps := [];
    } else {
      var head, s', k := PassOnce(cfg, s, j);
      AllowanceLess(cfg, s.jobs, s'.jobs, k, j);
      var tail := Exhaust(cfg, s', j);
      OvertakesAppend(cfg, s, head, tail, j);
      steps := head + tail;
    }
  }

  lemma ReachLined(cfg: Config, clock: Time, before: seq<Step>, j: JobId)
    requires ValidConfig(cfg) && Executable(cfg, Init(cfg, clock), before) && Quiet(before)
    requires NothingRuns(Exec(cfg, Init(cfg, clock), before), j)
    ensures Lined(cfg, Exec(cfg, Init(cfg, clock), before), j)
  {
    InvInit(cfg, clock);
    InvRun(cfg, Init(cfg, clock), before);
    UndisturbedRun(cfg, Init(cfg, clock), before);
    QuietLined(cfg, Exec(cfg, Init(cfg, clock), before), j);
  }

  /** No job is leased, a worker is free, and j waits. */
  ghost predicate NothingRuns(s: State, j: JobId) {
    && s.workers != [] && s.workers[0].Idle? && j in s.jobs && s.jobs[j].status.Waiting()
    && forall id :: id in s.jobs ==> !s.jobs[id].status.Processing?
  }

  lemma SameAllowance(cfg: Config, t: Table, t': Table, j: JobId)
    requires cfg.retryMax >= 0 && SameAges(t, t') && j in t
    ensures Allowance(cfg, t, t, j) == Allowance(cfg, t, t', j)
  {}

  /**
   Where claims take one job at a time, every state without a running lease, reached without stale requeue or replay,
   has a continuation of the same kind in which a waiting job is passed over exactly as often as BoundedOvertaking
   allows.
   */
  lemma BoundedOvertakingExact(cfg: Config, clock: Time, before: seq<Step>, j: JobId) returns (after: seq<Step>)
    requires ValidConfig(cfg) && OneAtATime(cfg) && Executable(cfg, Init(cfg, clock), before) && Quiet(before)
    requires NothingRuns(Exec(cfg, Init(cfg, clock), before), j)
    ensures var s := Exec(cfg, Init(cfg, clock), before);
            && Executable(cfg, s, after) && Quiet(after) && j in Exec(cfg, s, after).jobs
            && Overtakes(cfg, s, after, j) == Total(Allowance(cfg, s.jobs, Exec(cfg, s, after).jobs, j))
  {
    ReachLined(cfg, clock, before, j);
    var s := Exec(cfg, Init(cfg, clock), before);
    after := Exhaust(cfg, s, j);
    SameAllowance(cfg, s.jobs, Exec(cfg, s, after).jobs, j);
  }

  // ----- In numbers

  lemma {:induction false} TotalConstant<K>(m: map<K, nat>, c: nat)
    requires forall k :: k in m ==> m[k] == c
    ensures Total(m) == |m.Keys| * c
    decreases |m|
  {
    if m != map[] {
      var k :| k in m;
      TotalSplit(m, k);
      RemoveShrinks(m, k);
      assert (m - {k}).Keys == m.Keys - {k};
      assert |m.Keys - {k}| == |m.Keys| - 1;
      TotalConstant(m - {k}, c);
    }
  }

  /** A queue of jobs 0 to n, enqueued at once. */
  ghost predicate Filled(t: Table, n: nat, clock: Time) {
    && t.Keys == Elems(seq(n + 1, i => i))
    && forall id :: id in t ==>
         t[id].status.Queued? && t[id].attempts == 0 && t[id].nextAttemptAt == clock && t[id].createdAt == clock
  }

  lemma Fill(cfg: Config, clock: Time, n: nat) returns (before: seq<Step>)
    requires ValidConfig(cfg)
    ensures Executable(cfg, Init(cfg, clock), before) && Quiet(before)
    ensures var s := Exec(cfg, Init(cfg, clock), before);
            && Filled(s.jobs, n, clock) && s.clock == clock && s.ledger.Keys == s.jobs.Keys
            && s.workers == Init(cfg, clock).workers
  {
    var msgs := seq(n + 1, _ => Message(["a@b"], ""));
    var ids: seq<JobId> := seq(n + 1, i => i);
    var step := Enqueue(clock, "", msgs, ids);
    FillTable(msgs, ids, clock, n);
    before := [step];
    ExecOne(cfg, Init(cfg, clock), step);
    KeysStep(cfg, Init(cfg, clock), step);
  }

  lemma FillTable(msgs: seq<Message>, ids: seq<JobId>, clock: Time, n: nat)
    requires ids == seq(n + 1, i => i) && Enqueueable(map[], msgs, ids)
    ensures Filled(EnqueueTable(map[], "", msgs, ids, clock), n, clock)
  {
    EnqueuedRows(map[], "", msgs, ids, clock);
    var t := EnqueueTable(map[], "", msgs, ids, clock);
    forall id | id in t
      ensures t[id].status.Queued? && t[id].attempts == 0 && t[id].nextAttemptAt == clock && t[id].createdAt == clock
    {
      var i :| 0 <= i < |ids| && ids[i] == id;
      assert t[ids[i]] == NewRow("", msgs[i], clock);
    }
  }

  lemma FilledAllowance(cfg: Config, t: Table, n: nat, clock: Time)
    requires ValidConfig(cfg) && Filled(t, n, clock)
    ensures n in t && Total(Allowance(cfg, t, t, n)) == n * cfg.retryMax
  {
    var all: seq<JobId> := seq(n + 1, i => i);
    var ids: seq<JobId> := seq(n, i => i);
    assert all[n] == n && all == ids + [n];
    ElemsAppend(ids, n);
    ElemsSize(ids);
    var a := Allowance(cfg, t, t, n);
    assert n !in ids;
    assert a.Keys == Elems(ids);
    TotalConstant(a, cfg.retryMax);
  }

  /** The last of n + 1 jobs enqueued together can be passed over n times the retry limit before its first claim. */
  lemma LongestWait(cfg: Config, clock: Time, n: nat) returns (before: seq<Step>, after: seq<Step>)
    requires ValidConfig(cfg) && OneAtATime(cfg)
    ensures Executable(cfg, Init(cfg, clock), before) && Quiet(before)
    ensures var s := Exec(cfg, Init(cfg, clock), before);
            Executable(cfg, s, after) && Quiet(after) && Overtakes(cfg, s, after, n) == n * cfg.retryMax
  {
    before := Fill(cfg, clock, n);
    var s := Exec(cfg, Init(cfg, clock), before);
    FilledAllowance(cfg, s.jobs, n, clock);
    FilledLined(cfg, s, n);
    after := Exhaust(cfg, s, n);
  }

  lemma FilledLined(cfg: Config, s: State, n: nat)
    requires ValidConfig(cfg) && Filled(s.jobs, n, s.clock) && n in s.jobs
    requires s.ledger.Keys == s.jobs.Keys && s.workers == Init(cfg, s.clock).workers
    ensures Lined(cfg, s, n)
  {}
}
