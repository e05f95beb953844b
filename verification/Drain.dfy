/**
 The queue drains: from every reachable state, once a lease has passed, stale jobs are requeued, the API accepts and
 marks commit, every run of the workers does a bounded amount of work and can stop only with every job finished,
 whatever the database answers and however the workers interleave. Workers refused before that are not left out: their
 late retry and dead-letter marks are steps of these runs.
 */
module Drain {
  import opened Prelude
  import opened JobTable
  import opened Dispatch
  import opened Protocol
  import opened JobView
  import opened Simulation
  import opened Invariant

  // ----- The claim's query always has an answer

  lemma {:induction false} Youngest(t: Table, ids: set<JobId>) returns (m: JobId)
    requires ids != {} && ids <= t.Keys
    ensures m in ids && forall x :: x in ids ==> t[x].createdAt <= t[m].createdAt
    decreases |ids|
  {
    m :| m in ids;
    if ids != {m} {
      assert ids - {m} != {} by {
        var y :| y in ids && y != m;
        assert y in ids - {m};
      }
      var k := Youngest(t, ids - {m});
      if t[m].createdAt <= t[k].createdAt {
        m := k;
      }
    }
  }

  ghost predicate Lists(t: Table, ids: set<JobId>, order: seq<JobId>) {
    && Distinct(order)
    && (forall id :: id in order <==> id in ids)
    && ByAge(t, order)
  }

  lemma {:induction false} OldestFirst(t: Table, ids: set<JobId>) returns (order: seq<JobId>)
    requires ids <= t.Keys
    ensures Lists(t, ids, order)
    decreases |ids|
  {
    if ids == {} {
      order := [];
    } else {
      var m := Youngest(t, ids);
      var front := OldestFirst(t, ids - {m});
      order := front + [m];
      assert m !in front;
      assert forall i :: 0 <= i < |front| ==> front[i] in front;
    }
  }

  lemma EligibleOrderExists(t: Table, now: Time) returns (order: seq<JobId>)
    ensures IsEligibleOrder(t, now, order)
  {
    order := OldestFirst(t, set id | id in t && Claimable(t[id], now));
  }

  lemma RereadExists(t: Table, ids: seq<JobId>, worker: string) returns (reread: seq<JobId>)
    ensures IsReread(t, ids, worker, reread)
  {
    reread := OldestFirst(t, set id | id in t && id in ids && Leased(t[id], worker));
  }

  // ----- One successful round of one worker

  /** The rows of t listed in ids are sent in t', the others untouched. */
  ghost predicate SentNow(t: Table, t': Table, ids: seq<JobId>) {
    t'.Keys == t.Keys && forall id :: id in t ==> if id in ids then t'[id].status.Sent? else t'[id] == t[id]
  }

  /** Whatever its queries answer, a claim with an eligible job takes one, and a successful round sends what it took. */
  lemma Round(cfg: Config, s: State, w: nat, now: Time, order: seq<JobId>, reread: seq<JobId>, bulkId: string)
    requires cfg.claimLimit >= 1 && order != [] && Enabled(cfg, s, Claim(w, now, order, reread))
    ensures var steps := [Claim(w, now, order, reread), SendOk(w, bulkId), StoreSent(w, now, true)];
            && Taken(cfg, s, order) != []
            && Executable(cfg, s, steps)
            && SentNow(s.jobs, Exec(cfg, s, steps).jobs, Taken(cfg, s, order))
            && Exec(cfg, s, steps).clock == s.clock && Exec(cfg, s, steps).workers == s.workers
  {
    var ids := Taken(cfg, s, order);
    TakenAll(cfg, s, now, order, reread);
    var a := Apply(cfg, s, Claim(w, now, order, reread));
    var b := Apply(cfg, a, SendOk(w, bulkId));
    var c := Apply(cfg, b, StoreSent(w, now, true));
    ExecThree(cfg, s, Claim(w, now, order, reread), SendOk(w, bulkId), StoreSent(w, now, true));
    assert c.workers == s.workers;
    forall id | id in s.jobs ensures if id in ids then c.jobs[id].status.Sent? else c.jobs[id] == s.jobs[id] {
      JobsAtCarries(a.jobs, reread, id);
    }
  }

  // ----- Runs in which everything succeeds

  /** An accepted call, a committed mark of whatever kind, a claim, or the passing of time. */
  predicate Friendly(step: Step) {
    || step.Tick? || step.Claim? || step.SendOk?
    || ((step.StoreSent? || step.StoreRetry? || step.StoreDlq?) && step.commits)
  }

  ghost predicate FriendlyRun(cfg: Config, s: State, steps: seq<Step>) {
    Executable(cfg, s, steps) && forall step :: step in steps ==> Friendly(step)
  }

  /** A claim that takes something. */
  ghost predicate Takes(cfg: Config, s: State, step: Step)
    requires Enabled(cfg, s, step)
  {
    step.Claim? && Taken(cfg, s, step.order) != []
  }

  /** Not merely the passing of time or a claim that finds nothing. */
  ghost predicate Works(cfg: Config, s: State, step: Step)
    requires Enabled(cfg, s, step)
  {
    Takes(cfg, s, step) || step.SendOk? || step.StoreSent? || step.StoreRetry? || step.StoreDlq?
  }

  ghost function Claims(cfg: Config, s: State, steps: seq<Step>): nat
    requires Executable(cfg, s, steps)
    decreases |steps|
  {
    if steps == [] then 0
    else Bit(Takes(cfg, s, steps[0])) + Claims(cfg, Apply(cfg, s, steps[0]), steps[1..])
  }

  ghost function WorkDone(cfg: Config, s: State, steps: seq<Step>): nat
    requires Executable(cfg, s, steps)
    decreases |steps|
  {
    if steps == [] then 0
    else Bit(Works(cfg, s, steps[0])) + WorkDone(cfg, Apply(cfg, s, steps[0]), steps[1..])
  }

  // ----- The work left bounds every such run

  ghost function WaitingIds(t: Table): set<JobId> {
    set id | id in t && t[id].status.Waiting()
  }

  function PhaseSum(workers: seq<Phase>, f: Phase -> nat): nat {
    if workers == [] then 0 else f(workers[0]) + PhaseSum(workers[1..], f)
  }

  lemma {:induction false} PhaseSumUpdate(workers: seq<Phase>, w: nat, p: Phase, f: Phase -> nat)
    requires w < |workers|
    ensures PhaseSum(workers[w := p], f) + f(workers[w]) == PhaseSum(workers, f) + f(p)
  {
    if w == 0 {
      assert workers[w := p][1..] == workers[1..];
    } else {
      PhaseSumUpdate(workers[1..], w - 1, p, f);
      assert workers[w := p][1..] == workers[1..][w - 1 := p];
    }
  }

  /** The jobs a refused worker is still going to put back for retry. */
  function Returns(cfg: Config): Phase -> nat {
    (p: Phase) =>
      if p.Refused? && ClassifyFailure(p.code, true) == RetryLater then |RetryJobs(p.batch, cfg.retryMax)| else 0
  }

  /** The steps a worker needs to end its turn. */
  function TurnLeft(p: Phase): nat {
    if p.Claimed? || p.Refused? then 2 else if p.Acked? || p.HalfMarked? then 1 else 0
  }

  /** The jobs waiting, and those that refused workers put back. */
  ghost function ToClaim(cfg: Config, s: State): nat {
    |WaitingIds(s.jobs)| + PhaseSum(s.workers, Returns(cfg))
  }

  /** Three steps for each of them, and what each worker still has to do. */
  ghost function WorkLeft(cfg: Config, s: State): nat {
    3 * ToClaim(cfg, s) + PhaseSum(s.workers, TurnLeft)
  }

  lemma ClaimWaiting(t: Table, ids: seq<JobId>, worker: string, now: Time)
    requires ids != [] && forall id :: id in ids ==> id in t && Claimable(t[id], now)
    ensures |WaitingIds(ClaimTable(t, ids, worker, now))| < |WaitingIds(t)|
  {
    var t' := ClaimTable(t, ids, worker, now);
    assert ids[0] in WaitingIds(t);
    assert WaitingIds(t') <= WaitingIds(t) - {ids[0]};
    SubsetSize(WaitingIds(t'), WaitingIds(t) - {ids[0]});
  }

  ghost function IdsIn(batch: seq<Job>): set<JobId> {
    set job | job in batch :: job.id
  }

  lemma {:induction false} IdsInSize(batch: seq<Job>)
    ensures |IdsIn(batch)| <= |batch|
  {
    if batch != [] {
      var front, last := batch[..|batch| - 1], batch[|batch| - 1];
      IdsInSize(front);
      assert batch == front + [last];
      assert IdsIn(batch) == IdsIn(front) + {last.id};
    }
  }

  /** A retry mark puts back at most as many rows as it lists; the other marks put back none. */
  lemma MarkWaiting(t: Table, batch: seq<Job>, m: Mark, now: Time)
    ensures |WaitingIds(MarkTable(t, batch, m, now))| <= |WaitingIds(t)| + (if m.MarkRetry? then |batch| else 0)
  {
    var before, after := WaitingIds(t), WaitingIds(MarkTable(t, batch, m, now));
    if m.MarkRetry? {
      IdsInSize(batch);
      assert after <= before + IdsIn(batch);
      SubsetSize(after, before + IdsIn(batch));
      assert |before + IdsIn(batch)| <= |before| + |IdsIn(batch)|;
    } else {
      assert after == before;
    }
  }

  /** What a step of worker w changes, when its table is given. */
  lemma WorkerStep(cfg: Config, s: State, s': State, w: nat)
    requires w < |s.workers| && |s'.workers| == |s.workers| && s'.workers == s.workers[w := s'.workers[w]]
    ensures var p, q := s.workers[w], s'.workers[w];
            && ToClaim(cfg, s') + |WaitingIds(s.jobs)| + Returns(cfg)(p)
               == ToClaim(cfg, s) + |WaitingIds(s'.jobs)| + Returns(cfg)(q)
            && PhaseSum(s'.workers, TurnLeft) + TurnLeft(p) == PhaseSum(s.workers, TurnLeft) + TurnLeft(q)
  {
    PhaseSumUpdate(s.workers, w, s'.workers[w], Returns(cfg));
    PhaseSumUpdate(s.workers, w, s'.workers[w], TurnLeft);
  }

  lemma ClaimStep(cfg: Config, s: State, step: Step)
    requires Enabled(cfg, s, step) && Takes(cfg, s, step)
    ensures ToClaim(cfg, Apply(cfg, s, step)) < ToClaim(cfg, s)
    ensures WorkLeft(cfg, Apply(cfg, s, step)) < WorkLeft(cfg, s)
  {
    TakenAll(cfg, s, step.now, step.order, step.reread);
    ClaimWaiting(s.jobs, Taken(cfg, s, step.order), cfg.workerId, step.now);
    WorkerStep(cfg, s, Apply(cfg, s, step), step.w);
  }

  lemma RetryStep(cfg: Config, s: State, step: Step)
    requires Enabled(cfg, s, step) && step.StoreRetry? && step.commits
    ensures ToClaim(cfg, Apply(cfg, s, step)) <= ToClaim(cfg, s)
    ensures WorkLeft(cfg, Apply(cfg, s, step)) < WorkLeft(cfg, s)
  {
    var p := s.workers[step.w];
    MarkWaiting(s.jobs, RetryJobs(p.batch, cfg.retryMax), RetryMark(p, step.now, step.jitter, cfg.retryMax), step.now);
    WorkerStep(cfg, s, Apply(cfg, s, step), step.w);
  }

  lemma OtherStep(cfg: Config, s: State, step: Step)
    requires Enabled(cfg, s, step)
    requires step.SendOk? || ((step.StoreSent? || step.StoreDlq?) && step.commits)
    ensures ToClaim(cfg, Apply(cfg, s, step)) <= ToClaim(cfg, s)
    ensures WorkLeft(cfg, Apply(cfg, s, step)) < WorkLeft(cfg, s)
  {
    var p := s.workers[step.w];
    if step.StoreSent? {
      MarkWaiting(s.jobs, p.batch, MarkSent(p.bulkId), step.now);
    } else if step.StoreDlq? {
      MarkWaiting(s.jobs, p.batch, MarkDlq(p.error, p.code), step.now);
    }
    WorkerStep(cfg, s, Apply(cfg, s, step), step.w);
  }

  lemma FriendlyStep(cfg: Config, s: State, step: Step)
    requires Enabled(cfg, s, step) && Friendly(step)
    ensures ToClaim(cfg, Apply(cfg, s, step)) + Bit(Takes(cfg, s, step)) <= ToClaim(cfg, s)
    ensures WorkLeft(cfg, Apply(cfg, s, step)) + Bit(Works(cfg, s, step)) <= WorkLeft(cfg, s)
  {
    if Takes(cfg, s, step) {
      ClaimStep(cfg, s, step);
    } else if step.StoreRetry? {
      RetryStep(cfg, s, step);
    } else if !step.Tick? && !step.Claim? {
      OtherStep(cfg, s, step);
    }
  }

  lemma {:induction false} WorkBound(cfg: Config, s: State, steps: seq<Step>)
    requires FriendlyRun(cfg, s, steps)
    ensures Claims(cfg, s, steps) + ToClaim(cfg, Exec(cfg, s, steps)) <= ToClaim(cfg, s)
    ensures WorkDone(cfg, s, steps) + WorkLeft(cfg, Exec(cfg, s, steps)) <= WorkLeft(cfg, s)
    decreases |steps|
  {
    if steps != [] {
      FriendlyStep(cfg, s, steps[0]);
      WorkBound(cfg, Apply(cfg, s, steps[0]), steps[1..]);
    }
  }

  // ----- Such a run stops only when every job is finished

  ghost predicate DeniedIn(v: View, w: nat) {
    w in v.holds && v.holds[w].stage == Denied
  }

  /**
   Seen from one job whose view at the start was v0: finished, waiting, or under way at a worker that will mark it
   sent; a dead letter only by the mark of a worker refused before the start.
   */
  ghost predicate UnderWay(v0: View, v: View) {
    && (v0.row.status.Finished() ==> v.row == v0.row)
    && (!v0.row.status.Finished() && v.row.status.Dlq? ==> exists w :: DeniedIn(v0, w))
    && (forall w :: DeniedIn(v, w) ==> DeniedIn(v0, w))
    && (v.row.status.Processing? ==> v.entry.owner in v.holds && !DeniedIn(v, v.entry.owner))
  }

  lemma UnderWayStep(cfg: Config, v0: View, v: View, vs: ViewStep)
    requires UnderWay(v0, v) && ViewEnabled(cfg, v, vs)
    requires vs.VSkip? || vs.VTick? || vs.VClaim? || vs.VSendOk? || vs.VMark?
    ensures UnderWay(v0, ViewApply(cfg, v, vs))
  {
    var v' := ViewApply(cfg, v, vs);
    forall w | DeniedIn(v', w) ensures DeniedIn(v0, w) {
      assert DeniedIn(v, w);
    }
    if vs.VMark? && vs.m.MarkDlq? {
      assert DeniedIn(v, vs.w);
    }
  }

  /** Every job of the starting state is under way. */
  ghost predicate Draining(cfg: Config, s0: State, s: State) {
    && Global(cfg, s) && s0.ledger.Keys == s0.jobs.Keys && s.jobs.Keys == s0.jobs.Keys
    && (forall id :: id in s.jobs ==> UnderWay(ViewOf(cfg, s0, id), ViewOf(cfg, s, id)))
  }

  lemma DrainingStep(cfg: Config, s0: State, s: State, step: Step)
    requires Draining(cfg, s0, s) && Enabled(cfg, s, step) && Friendly(step)
    ensures Draining(cfg, s0, Apply(cfg, s, step))
  {
    var s' := Apply(cfg, s, step);
    GlobalStep(cfg, s, step);
    KeysStep(cfg, s, step);
    forall id | id in s'.jobs ensures UnderWay(ViewOf(cfg, s0, id), ViewOf(cfg, s', id)) {
      StaysUnderWay(cfg, ViewOf(cfg, s0, id), s, step, id);
    }
  }

  lemma StaysUnderWay(cfg: Config, v0: View, s: State, step: Step, id: JobId)
    requires Global(cfg, s) && Enabled(cfg, s, step) && Friendly(step)
    requires id in s.jobs && UnderWay(v0, ViewOf(cfg, s, id))
    ensures id in Apply(cfg, s, step).jobs && id in Apply(cfg, s, step).ledger
    ensures UnderWay(v0, ViewOf(cfg, Apply(cfg, s, step), id))
  {
    Simulates(cfg, s, step, id);
    UnderWayStep(cfg, v0, ViewOf(cfg, s, id), Project(cfg, s, step, id));
  }

  lemma {:induction false} DrainingRun(cfg: Config, s0: State, s: State, steps: seq<Step>)
    requires Draining(cfg, s0, s) && FriendlyRun(cfg, s, steps)
    ensures Draining(cfg, s0, Exec(cfg, s, steps))
    decreases |steps|
  {
    if steps != [] {
      DrainingStep(cfg, s0, s, steps[0]);
      DrainingRun(cfg, s0, Apply(cfg, s, steps[0]), steps[1..]);
    }
  }

  /** Some worker was refused with this job aboard and has yet to mark it. */
  ghost predicate LeftRefused(s: State, id: JobId) {
    exists w: nat :: w < |s.workers| && (s.workers[w].Refused? || s.workers[w].HalfMarked?)
                     && Carries(s.workers[w].batch, id)
  }

  /**
   Every job finished: the finished ones are as they were, the open ones are sent, but for dead letters of workers
   that were refused before the start.
   */
  ghost predicate Drained(s0: State, t: Table) {
    && t.Keys == s0.jobs.Keys
    && (forall id :: id in t ==>
          if s0.jobs[id].status.Finished() then t[id] == s0.jobs[id]
          else t[id].status.Sent? || (t[id].status.Dlq? && LeftRefused(s0, id)))
  }

  ghost function Waited(s: State, elapsed: nat): State {
    s.(clock := s.clock + elapsed)
  }

  /** No worker has anything to do, now or however long it waits: no call, no mark, nothing to claim. */
  ghost predicate Stuck(cfg: Config, s: State) {
    forall elapsed: nat, step: Step ::
      Enabled(cfg, Waited(s, elapsed), step) && Friendly(step) ==> !Works(cfg, Waited(s, elapsed), step)
  }

  /** A worker in the middle of its turn can go on. */
  lemma NextOfTurn(cfg: Config, s: State, w: nat) returns (step: Step)
    requires w < |s.workers| && !s.workers[w].Idle?
    ensures Enabled(cfg, s, step) && Friendly(step) && Works(cfg, s, step)
  {
    var p := s.workers[w];
    match p
    case Claimed(_, _) => step := SendOk(w, "");
    case Acked(_, _, _) => step := StoreSent(w, s.clock, true);
    case HalfMarked(_, _, _, _) => step := StoreDlq(w, s.clock, true);
    case Refused(batch, _, code, _) =>
      if ClassifyFailure(code, true) == Permanent || RetryJobs(batch, cfg.retryMax) == [] {
        step := StoreDlq(w, s.clock, true);
      } else {
        step := StoreRetry(w, s.clock, 1.0, true);
      }
  }

  /** A free worker can claim something once a waiting job is due. */
  lemma NextClaim(cfg: Config, s: State, w: nat, id: JobId) returns (step: Step)
    requires cfg.claimLimit >= 1 && w < |s.workers| && s.workers[w].Idle?
    requires id in s.jobs && Claimable(s.jobs[id], s.clock)
    ensures Enabled(cfg, s, step) && Friendly(step) && Works(cfg, s, step)
  {
    var order := EligibleOrderExists(s.jobs, s.clock);
    assert id in order;
    var ids := Taken(cfg, s, order);
    var reread := RereadExists(ClaimTable(s.jobs, ids, cfg.workerId, s.clock), ids, cfg.workerId);
    step := Claim(w, s.clock, order, reread);
  }

  /** While some job is unfinished, some worker has something to do, perhaps after a backoff. */
  lemma NextWork(cfg: Config, s0: State, s: State, id: JobId) returns (elapsed: nat, step: Step)
    requires ValidConfig(cfg) && Draining(cfg, s0, s) && id in s.jobs && !s.jobs[id].status.Finished()
    ensures Enabled(cfg, Waited(s, elapsed), step) && Friendly(step) && Works(cfg, Waited(s, elapsed), step)
  {
    elapsed := 0;
    if !s.workers[0].Idle? {
      step := NextOfTurn(cfg, Waited(s, 0), 0);
    } else if s.jobs[id].status.Waiting() {
      elapsed := if s.jobs[id].nextAttemptAt <= s.clock then 0 else s.jobs[id].nextAttemptAt - s.clock;
      step := NextClaim(cfg, Waited(s, elapsed), 0, id);
    } else {
      assert UnderWay(ViewOf(cfg, s0, id), ViewOf(cfg, s, id));
      var owner := s.ledger[id].owner;
      HoldsMember(cfg, s.workers, owner, id);
      step := NextOfTurn(cfg, Waited(s, 0), owner);
    }
  }

  lemma LeftDenied(cfg: Config, s: State, w: nat, id: JobId)
    requires id in s.jobs && id in s.ledger && DeniedIn(ViewOf(cfg, s, id), w)
    ensures LeftRefused(s, id)
  {
    HoldsMember(cfg, s.workers, w, id);
  }

  lemma StuckIsDrained(cfg: Config, s0: State, s: State)
    requires ValidConfig(cfg) && Draining(cfg, s0, s) && Stuck(cfg, s)
    ensures Drained(s0, s.jobs)
  {
    forall id | id in s.jobs
      ensures if s0.jobs[id].status.Finished() then s.jobs[id] == s0.jobs[id]
              else s.jobs[id].status.Sent? || (s.jobs[id].status.Dlq? && LeftRefused(s0, id))
    {
      var v0 := ViewOf(cfg, s0, id);
      assert UnderWay(v0, ViewOf(cfg, s, id));
      if !s.jobs[id].status.Finished() {
        var elapsed, step := NextWork(cfg, s0, s, id);
        assert false;
      }
      if s.jobs[id].status.Dlq? && !s0.jobs[id].status.Finished() {
        var w :| DeniedIn(v0, w);
        LeftDenied(cfg, s0, w, id);
      }
    }
  }

  /** Wait, then do a step. */
  lemma WaitAndWork(cfg: Config, s: State, elapsed: nat, step: Step) returns (s': State)
    requires Enabled(cfg, Waited(s, elapsed), step) && Friendly(step) && Works(cfg, Waited(s, elapsed), step)
    ensures FriendlyRun(cfg, s, [Tick(elapsed), step]) && s' == Exec(cfg, s, [Tick(elapsed), step])
    ensures WorkLeft(cfg, s') < WorkLeft(cfg, s)
  {
    s' := Apply(cfg, Waited(s, elapsed), step);
    ExecTwo(cfg, s, Tick(elapsed), step);
    FriendlyStep(cfg, Waited(s, elapsed), step);
  }

  lemma OnePieceOfWork(cfg: Config, s0: State, s: State) returns (head: seq<Step>, s': State)
    requires Draining(cfg, s0, s) && !Stuck(cfg, s)
    ensures FriendlyRun(cfg, s, head) && s' == Exec(cfg, s, head)
    ensures Draining(cfg, s0, s') && WorkLeft(cfg, s') < WorkLeft(cfg, s)
  {
    var elapsed: nat, step: Step :|
      Enabled(cfg, Waited(s, elapsed), step) && Friendly(step) && Works(cfg, Waited(s, elapsed), step);
    head := [Tick(elapsed), step];
    s' := WaitAndWork(cfg, s, elapsed, step);
    DrainingRun(cfg, s0, s, head);
  }

  lemma FriendlyAppend(cfg: Config, s: State, a: seq<Step>, b: seq<Step>)
    requires FriendlyRun(cfg, s, a) && FriendlyRun(cfg, Exec(cfg, s, a), b)
    ensures FriendlyRun(cfg, s, a + b) && Exec(cfg, s, a + b) == Exec(cfg, Exec(cfg, s, a), b)
  {
    ExecAppend(cfg, s, a, b);
  }

  /** From every point of such a run it can go on until everything is drained. */
  lemma {:induction false} DrainOn(cfg: Config, s0: State, s: State) returns (steps: seq<Step>)
    requires ValidConfig(cfg) && Draining(cfg, s0, s)
    ensures FriendlyRun(cfg, s, steps) && Drained(s0, Exec(cfg, s, steps).jobs)
    decreases WorkLeft(cfg, s)
  {
    if Stuck(cfg, s) {
      StuckIsDrained(cfg, s0, s);
      steps := [];
    } else {
      var head, s' := OnePieceOfWork(cfg, s0, s);
      var rest := DrainOn(cfg, s0, s');
      FriendlyAppend(cfg, s, head, rest);
      steps := head + rest;
    }
  }

  // ----- From anywhere

  /** Every unfinished job could be claimed right now. */
  ghost predicate Ready(s: State) {
    forall id :: id in s.jobs ==> s.jobs[id].status.Finished() || Claimable(s.jobs[id], s.clock)
  }

  ghost function Unfinished(t: Table): set<JobId> {
    set id | id in t && !t[id].status.Finished()
  }

  /** Time passes and stale leases are requeued; no worker is touched. */
  function Recovery(s: State, now: Time): seq<Step>
    requires now >= s.clock
  {
    [Tick(now - s.clock), RequeueStale(now)]
  }

  lemma Recover(cfg: Config, s: State, now: Time)
    requires now >= s.clock
    ensures Executable(cfg, s, Recovery(s, now))
    ensures var t := Exec(cfg, s, Recovery(s, now));
            t.jobs == RequeueTable(s.jobs, now, cfg.lease) && t.clock == now && t.workers == s.workers
  {
    ExecTwo(cfg, s, Tick(now - s.clock), RequeueStale(now));
  }

  /** Once a lease and the longest backoff have passed, a stale requeue leaves every unfinished job claimable. */
  lemma MakeReady(cfg: Config, s: State, now: Time)
    requires ValidConfig(cfg) && Inv(cfg, s) && now > s.clock + MAX_BACKOFF + cfg.lease
    ensures Executable(cfg, s, Recovery(s, now)) && Ready(Exec(cfg, s, Recovery(s, now)))
    ensures Exec(cfg, s, Recovery(s, now)).jobs == RequeueTable(s.jobs, now, cfg.lease)
  {
    var rows := RequeueTable(s.jobs, now, cfg.lease);
    forall id | id in rows ensures rows[id].status.Finished() || Claimable(rows[id], now) {
      assert ViewInv(cfg, ViewOf(cfg, s, id));
      ReadyRow(cfg, ViewOf(cfg, s, id), now);
    }
    Recover(cfg, s, now);
  }

  lemma ReadyRow(cfg: Config, v: View, now: Time)
    requires ShapeInv(cfg, v) && now > v.clock + cfg.lease && now >= v.clock + MAX_BACKOFF
    ensures var r := if Stale(v.row, now, cfg.lease) then RequeueRow(v.row, now) else v.row;
            r.status.Finished() || Claimable(r, now)
  {}

  lemma ReadyDrains(cfg: Config, s: State)
    requires Global(cfg, s) && Ready(s)
    ensures Draining(cfg, s, s) && WaitingIds(s.jobs) == Unfinished(s.jobs)
  {}

  /** What every successful run from s promises for its jobs. */
  ghost predicate Drains(cfg: Config, s0: State, s: State, steps: seq<Step>)
    requires Executable(cfg, s, steps)
  {
    var jobs := |Unfinished(s0.jobs)| + PhaseSum(s0.workers, Returns(cfg));
    var end := Exec(cfg, s, steps);
    && Claims(cfg, s, steps) <= jobs
    && WorkDone(cfg, s, steps) <= 3 * jobs + PhaseSum(s0.workers, TurnLeft)
    && (Stuck(cfg, end) ==> Drained(s0, end.jobs))
    && (exists more :: FriendlyRun(cfg, end, more) && Drained(s0, Exec(cfg, end, more).jobs))
  }

  lemma EveryRunDrains(cfg: Config, s: State, steps: seq<Step>)
    requires ValidConfig(cfg) && Global(cfg, s) && Ready(s) && FriendlyRun(cfg, s, steps)
    ensures Drains(cfg, s, s, steps)
  {
    ReadyDrains(cfg, s);
    WorkBound(cfg, s, steps);
    DrainingRun(cfg, s, s, steps);
    var end := Exec(cfg, s, steps);
    var more := DrainOn(cfg, s, end);
    if Stuck(cfg, end) {
      StuckIsDrained(cfg, s, end);
    }
  }

  /** A stale requeue finishes no job and leaves the workers as they are, so draining after it is draining before it. */
  lemma RequeueKeepsOpen(cfg: Config, s: State, t: State, now: Time)
    requires t.jobs == RequeueTable(s.jobs, now, cfg.lease) && t.workers == s.workers
    ensures Unfinished(t.jobs) == Unfinished(s.jobs)
    ensures forall end :: Drained(t, end) ==> Drained(s, end)
  {
    assert forall id :: LeftRefused(t, id) <==> LeftRefused(s, id);
  }

  /**
   From every reachable state, wherever its workers are caught: let a lease and the longest backoff pass and requeue
   what is stale. Then every run of accepted calls and committed marks, late retry and dead-letter marks of workers
   refused before included, with any answers of the database and any interleaving, takes at most as many claims as
   jobs were unfinished plus jobs those workers put back, and three steps for each of them; has finished every job if
   no worker has anything left to do, sending each but the dead letters of those workers; and can always go on until
   then.
   */
  lemma DrainFromAnywhere(cfg: Config, clock: Time, run: seq<Step>, now: Time, steps: seq<Step>)
    requires ValidConfig(cfg) && Executable(cfg, Init(cfg, clock), run)
    requires now > Exec(cfg, Init(cfg, clock), run).clock + MAX_BACKOFF + cfg.lease
    ensures var s := Exec(cfg, Init(cfg, clock), run);
            && Executable(cfg, s, Recovery(s, now))
            && var t := Exec(cfg, s, Recovery(s, now));
            FriendlyRun(cfg, t, steps) ==> Drains(cfg, s, t, steps)
  {
    Reachable(cfg, clock, run);
    var s := Exec(cfg, Init(cfg, clock), run);
    MakeReady(cfg, s, now);
    Recover(cfg, s, now);
    InvRun(cfg, s, Recovery(s, now));
    var t := Exec(cfg, s, Recovery(s, now));
    RequeueKeepsOpen(cfg, s, t, now);
    if FriendlyRun(cfg, t, steps) {
      EveryRunDrains(cfg, t, steps);
    }
  }
}
