/**
 Every job in every run of the protocol lives a run of the one-job machine of module JobView.
 */
module Simulation {
  import opened Prelude
  import opened JobTable
  import opened BatchCut
  import opened Dispatch
  import opened Protocol
  import opened JobView

  // ----- The projection

  function StageOf(p: Phase): Stage {
    if p.Acked? then Confirmed else if p.Refused? || p.HalfMarked? then Denied else Unsent
  }

  ghost predicate CarriesEarly(cfg: Config, batch: seq<Job>, id: JobId) {
    exists job :: job in batch && job.id == id && HasRetryLeft(job, cfg.retryMax)
  }

  ghost function HoldOf(cfg: Config, p: Phase, id: JobId): Hold
    requires !p.Idle?
  {
    Hold(p.at, CarriesEarly(cfg, p.batch, id), StageOf(p))
  }

  ghost function HoldsOf(cfg: Config, workers: seq<Phase>, id: JobId): map<nat, Hold> {
    map w: nat | w < |workers| && Carries(BatchOf(workers[w]), id) :: HoldOf(cfg, workers[w], id)
  }

  ghost function ViewOf(cfg: Config, s: State, id: JobId): View
    requires id in s.jobs && id in s.ledger
  {
    View(s.clock, s.jobs[id], s.ledger[id], HoldsOf(cfg, s.workers, id),
         AcceptedCount(s.sends, id), RejectedCount(s.sends, id),
         BulkIds(s.sends, id), Codes(s.sends, id))
  }

  /** What a protocol step does to one job. */
  ghost function Project(cfg: Config, s: State, step: Step, id: JobId): ViewStep
    requires Enabled(cfg, s, step) && id in s.jobs
  {
    match step
    case Tick(elapsed) => VTick(elapsed)
    case Enqueue(_, _, _, _) => VSkip
    case Claim(w, now, order, _) => if id in Taken(cfg, s, order) then VClaim(w, now) else VSkip
    case SendOk(w, bulkId) => if Carries(s.workers[w].batch, id) then VSendOk(w, bulkId) else VSkip
    case SendFail(w, code, _) => if Carries(s.workers[w].batch, id) then VSendFail(w, code) else VSkip
    case StoreSent(w, now, commits) =>
      var p := s.workers[w];
      if !Carries(p.batch, id) then VSkip else if commits then VMark(w, MarkSent(p.bulkId), now) else VForget(w)
    case StoreRetry(w, now, jitter, commits) =>
      var p := s.workers[w];
      if !Carries(p.batch, id) then VSkip
      else if !commits then VForget(w)
      else if CarriesEarly(cfg, p.batch, id) then VMark(w, RetryMark(p, now, jitter, cfg.retryMax), now)
      else VSkip
    case StoreDlq(w, now, commits) =>
      var p := s.workers[w];
      if !Carries(p.batch, id) then VSkip else if commits then VMark(w, MarkDlq(p.error, p.code), now) else VForget(w)
    case Crash(w) => if Carries(BatchOf(s.workers[w]), id) then VForget(w) else VSkip
    case RequeueStale(now) => if Stale(s.jobs[id], now, cfg.lease) then VRequeue(now) else VSkip
    case Replay(ids, now) => if s.jobs[id].status.Dlq? && id in ids then VReplay(now) else VSkip
    case RetryNow(now) => if s.jobs[id].status.Retry? then VRetryNow(now) else VSkip
  }

  // ----- What ties phases and log to the table

  /** The jobs of a batch are distinct rows of the table, with the letters they had when read. */
  ghost predicate Reads(t: Table, batch: seq<Job>) {
    && (forall job :: job in batch ==> job.id in t && SameLetter(job.row, t[job.id]))
    && (forall a, b :: a in batch && b in batch && a.id == b.id ==> a == b)
  }

  /** A batch as the claim cuts it. */
  predicate WithinLimits(cfg: Config, batch: seq<Job>) {
    batch != [] && |batch| <= cfg.claimLimit && Fits(batch, CountCap(cfg.maxCount), ByteCap(cfg.maxBytes))
  }

  ghost predicate PhaseOk(cfg: Config, s: State, p: Phase) {
    && Reads(s.jobs, BatchOf(p))
    && (p.Claimed? || p.Acked? || p.Refused? ==> WithinLimits(cfg, p.batch))
    && (p.HalfMarked? ==> forall job :: job in p.batch ==> !HasRetryLeft(job, cfg.retryMax))
    && (p.Acked? ==> forall id :: Carries(p.batch, id) ==> p.bulkId in BulkIds(s.sends, id))
    && (p.Refused? || p.HalfMarked? ==> forall id :: Carries(p.batch, id) ==> p.code in Codes(s.sends, id))
  }

  ghost predicate LogOk(cfg: Config, s: State) {
    forall r :: r in s.sends ==> WithinLimits(cfg, r.batch) && Reads(s.jobs, r.batch)
  }

  ghost predicate Global(cfg: Config, s: State) {
    && |s.workers| == cfg.workers
    && s.ledger.Keys == s.jobs.Keys
    && (forall w :: 0 <= w < |s.workers| ==> PhaseOk(cfg, s, s.workers[w]))
    && LogOk(cfg, s)
  }

  // ----- Small facts

  lemma HoldsUpdate(cfg: Config, workers: seq<Phase>, w: nat, p: Phase, id: JobId)
    requires w < |workers|
    ensures HoldsOf(cfg, workers[w := p], id)
         == if Carries(BatchOf(p), id) then HoldsOf(cfg, workers, id)[w := HoldOf(cfg, p, id)]
            else HoldsOf(cfg, workers, id) - {w}
  {}

  lemma HoldsMember(cfg: Config, workers: seq<Phase>, w: nat, id: JobId)
    requires w < |workers|
    ensures w in HoldsOf(cfg, workers, id) <==> Carries(BatchOf(workers[w]), id)
    ensures w in HoldsOf(cfg, workers, id) ==> HoldsOf(cfg, workers, id)[w] == HoldOf(cfg, workers[w], id)
  {}

  lemma HoldsAbsent(cfg: Config, workers: seq<Phase>, w: nat, id: JobId)
    requires w < |workers| && !Carries(BatchOf(workers[w]), id)
    ensures HoldsOf(cfg, workers, id) - {w} == HoldsOf(cfg, workers, id)
  {}

  // ----- One lemma per kind of step: the step projects

  /** The step is one enabled step of the job's own machine. */
  ghost predicate Projects(cfg: Config, s: State, step: Step, id: JobId)
    requires Enabled(cfg, s, step) && id in s.jobs && id in s.ledger
  {
    var s' := Apply(cfg, s, step);
    var v, vs := ViewOf(cfg, s, id), Project(cfg, s, step, id);
    && id in s'.jobs && id in s'.ledger
    && ViewEnabled(cfg, v, vs)
    && ViewOf(cfg, s', id) == ViewApply(cfg, v, vs)
  }

  lemma SimClaim(cfg: Config, s: State, w: nat, now: Time, order: seq<JobId>, reread: seq<JobId>, id: JobId)
    requires s.ledger.Keys == s.jobs.Keys && |s.workers| == cfg.workers && id in s.jobs
    requires Enabled(cfg, s, Claim(w, now, order, reread))
    ensures Projects(cfg, s, Claim(w, now, order, reread), id)
  {
    var ids := Taken(cfg, s, order);
    TakenAll(cfg, s, now, order, reread);
    HoldsMember(cfg, s.workers, w, id);
    if ids != [] {
      var s' := Apply(cfg, s, Claim(w, now, order, reread));
      ClaimHolds(cfg, s, ids, reread, w, now, id);
      if id in ids {
        ClaimView(cfg, s, s', w, now, id);
      } else {
        PassView(cfg, s, s', id);
      }
    }
  }

  /** The claim takes the job. */
  lemma ClaimView(cfg: Config, s: State, s': State, w: nat, now: Time, id: JobId)
    requires id in s.jobs && id in s.ledger && id in s'.jobs && id in s'.ledger
    requires w < cfg.workers && w !in HoldsOf(cfg, s.workers, id) && now <= s.clock && Claimable(s.jobs[id], now)
    requires s'.clock == s.clock && s'.sends == s.sends && s'.jobs[id] == ClaimRow(s.jobs[id], cfg.workerId, now)
    requires s'.ledger[id] == s.ledger[id].(owner := w, epochAccepted := false)
    requires HoldsOf(cfg, s'.workers, id)
          == HoldsOf(cfg, s.workers, id)[w := Hold(now, s.jobs[id].attempts + 1 < cfg.retryMax, Unsent)]
    ensures ViewEnabled(cfg, ViewOf(cfg, s, id), VClaim(w, now))
    ensures ViewOf(cfg, s', id) == ViewApply(cfg, ViewOf(cfg, s, id), VClaim(w, now))
  {}

  /** The step leaves the job alone. */
  lemma PassView(cfg: Config, s: State, s': State, id: JobId)
    requires id in s.jobs && id in s.ledger && id in s'.jobs && id in s'.ledger
    requires s'.clock == s.clock && s'.sends == s.sends && s'.jobs[id] == s.jobs[id] && s'.ledger[id] == s.ledger[id]
    requires HoldsOf(cfg, s'.workers, id) == HoldsOf(cfg, s.workers, id)
    ensures ViewOf(cfg, s', id) == ViewOf(cfg, s, id)
  {}

  /** The ids a claim takes are distinct and claimable, and its second query returns all of them. */
  lemma TakenAll(cfg: Config, s: State, now: Time, order: seq<JobId>, reread: seq<JobId>)
    requires IsEligibleOrder(s.jobs, now, order)
    requires var ids := Taken(cfg, s, order);
             IsReread(ClaimTable(s.jobs, ids, cfg.workerId, now), ids, cfg.workerId, reread)
    ensures Distinct(Taken(cfg, s, order))
    ensures forall id :: id in Taken(cfg, s, order) ==> id in s.jobs && Claimable(s.jobs[id], now)
    ensures |reread| == |Taken(cfg, s, order)|
    ensures forall id :: id in reread <==> id in Taken(cfg, s, order)
  {
    var ids := Taken(cfg, s, order);
    assert forall id :: id in ids ==> id in order;
    RereadAll(s.jobs, ids, cfg.workerId, now, reread);
  }

  lemma ClaimHolds(cfg: Config, s: State, ids: seq<JobId>, reread: seq<JobId>, w: nat, now: Time, id: JobId)
    requires w < |s.workers| && s.workers[w].Idle? && id in s.jobs
    requires forall x :: x in ids ==> x in s.jobs && Claimable(s.jobs[x], now)
    requires forall x :: x in reread <==> x in ids
    ensures var jobs := ClaimTable(s.jobs, ids, cfg.workerId, now);
            HoldsOf(cfg, s.workers[w := Claimed(JobsAt(jobs, reread), now)], id) == (
              if id in ids
              then HoldsOf(cfg, s.workers, id)[w := Hold(now, s.jobs[id].attempts + 1 < cfg.retryMax, Unsent)]
              else HoldsOf(cfg, s.workers, id))
  {
    var jobs := ClaimTable(s.jobs, ids, cfg.workerId, now);
    var p := Claimed(JobsAt(jobs, reread), now);
    HoldsUpdate(cfg, s.workers, w, p, id);
    HoldsAbsent(cfg, s.workers, w, id);
    JobsAtCarries(jobs, reread, id);
    if id in ids {
      var job :| job in p.batch && job.id == id;
      assert job.row.attempts == s.jobs[id].attempts;
      assert CarriesEarly(cfg, p.batch, id) <==> s.jobs[id].attempts + 1 < cfg.retryMax;
    }
  }

  /** A worker's phase change seen from one job, when the batch stays. */
  lemma PhaseChange(cfg: Config, workers: seq<Phase>, w: nat, q: Phase, id: JobId)
    requires w < |workers| && !workers[w].Idle? && !q.Idle? && q.batch == workers[w].batch && q.at == workers[w].at
    ensures var h := HoldsOf(cfg, workers, id);
            && (w in h <==> Carries(q.batch, id))
            && (w in h ==> h[w].stage == StageOf(workers[w]))
            && HoldsOf(cfg, workers[w := q], id) == if w in h then h[w := h[w].(stage := StageOf(q))] else h
  {
    HoldsMember(cfg, workers, w, id);
    HoldsUpdate(cfg, workers, w, q, id);
    if !Carries(q.batch, id) {
      HoldsAbsent(cfg, workers, w, id);
    }
  }

  /** s' is s after worker w's send, as far as one job can tell. */
  ghost predicate AfterSend(s: State, s': State, w: nat, q: Phase, r: Send, id: JobId) {
    && w < |s.workers| && s.workers[w].Claimed?
    && !q.Idle? && q.batch == s.workers[w].batch && q.at == s.workers[w].at && r.batch == q.batch
    && s'.clock == s.clock && s'.jobs == s.jobs && s'.workers == s.workers[w := q]
    && AcceptedCount(s'.sends, id) == AcceptedCount(s.sends, id) + Bit(r.outcome.Accepted? && Carries(r.batch, id))
    && RejectedCount(s'.sends, id) == RejectedCount(s.sends, id) + Bit(r.outcome.Rejected? && Carries(r.batch, id))
    && BulkIds(s'.sends, id)
       == BulkIds(s.sends, id) + (if r.outcome.Accepted? && Carries(r.batch, id) then {r.outcome.bulkId} else {})
    && Codes(s'.sends, id)
       == Codes(s.sends, id) + (if r.outcome.Rejected? && Carries(r.batch, id) then {r.outcome.code} else {})
  }

  lemma OkView(cfg: Config, s: State, s': State, w: nat, bulkId: string, r: Send, id: JobId)
    requires id in s.jobs && id in s.ledger
    requires s.workers != [] && w < |s.workers| && s.workers[w].Claimed?
    requires AfterSend(s, s', w, Acked(s.workers[w].batch, s.workers[w].at, bulkId), r, id)
    requires r.outcome == Accepted(bulkId)
    requires s'.ledger == NoteAccepted(s, w, s.workers[w].batch)
    ensures var v := ViewOf(cfg, s, id);
            ViewOf(cfg, s', id) == if Carries(r.batch, id) then ViewApply(cfg, v, VSendOk(w, bulkId)) else v
    ensures Carries(r.batch, id) ==> ViewEnabled(cfg, ViewOf(cfg, s, id), VSendOk(w, bulkId))
  {
    PhaseChange(cfg, s.workers, w, s'.workers[w], id);
  }

  lemma FailView(cfg: Config, s: State, s': State, w: nat, code: int, error: string, r: Send, id: JobId)
    requires id in s.jobs && id in s.ledger
    requires s.workers != [] && w < |s.workers| && s.workers[w].Claimed?
    requires AfterSend(s, s', w, Refused(s.workers[w].batch, s.workers[w].at, code, error), r, id)
    requires r.outcome == Rejected(code)
    requires s'.ledger == s.ledger
    ensures var v := ViewOf(cfg, s, id);
            ViewOf(cfg, s', id) == if Carries(r.batch, id) then ViewApply(cfg, v, VSendFail(w, code)) else v
    ensures Carries(r.batch, id) ==> ViewEnabled(cfg, ViewOf(cfg, s, id), VSendFail(w, code))
  {
    PhaseChange(cfg, s.workers, w, s'.workers[w], id);
  }

  lemma SimSendOk(cfg: Config, s: State, w: nat, bulkId: string, id: JobId)
    requires s.ledger.Keys == s.jobs.Keys && Enabled(cfg, s, SendOk(w, bulkId)) && id in s.jobs
    ensures Projects(cfg, s, SendOk(w, bulkId), id)
  {
    var r := Send(w, s.workers[w].batch, Accepted(bulkId));
    CountAppend(s.sends, r, id);
    OkView(cfg, s, Apply(cfg, s, SendOk(w, bulkId)), w, bulkId, r, id);
  }

  lemma SimSendFail(cfg: Config, s: State, w: nat, code: int, error: string, id: JobId)
    requires s.ledger.Keys == s.jobs.Keys && Enabled(cfg, s, SendFail(w, code, error)) && id in s.jobs
    ensures Projects(cfg, s, SendFail(w, code, error), id)
  {
    var r := Send(w, s.workers[w].batch, Rejected(code));
    CountAppend(s.sends, r, id);
    FailView(cfg, s, Apply(cfg, s, SendFail(w, code, error)), w, code, error, r, id);
  }

  lemma SimForget(cfg: Config, s: State, w: nat, id: JobId)
    requires s.ledger.Keys == s.jobs.Keys && w < |s.workers| && id in s.jobs
    ensures var s', v := Forget(s, w), ViewOf(cfg, s, id);
            && id in s'.ledger
            && (w in v.holds <==> Carries(BatchOf(s.workers[w]), id))
            && ViewOf(cfg, s', id) == if w in v.holds then ViewApply(cfg, v, VForget(w)) else v
  {
    HoldsMember(cfg, s.workers, w, id);
    HoldsUpdate(cfg, s.workers, w, Idle, id);
    if !Carries(BatchOf(s.workers[w]), id) {
      HoldsAbsent(cfg, s.workers, w, id);
    }
  }

  lemma SimStoreSent(cfg: Config, s: State, w: nat, now: Time, id: JobId)
    requires s.ledger.Keys == s.jobs.Keys && Enabled(cfg, s, StoreSent(w, now, true)) && id in s.jobs
    requires PhaseOk(cfg, s, s.workers[w])
    ensures Projects(cfg, s, StoreSent(w, now, true), id)
  {
    HoldsMember(cfg, s.workers, w, id);
    HoldsUpdate(cfg, s.workers, w, Idle, id);
    if !Carries(s.workers[w].batch, id) {
      HoldsAbsent(cfg, s.workers, w, id);
    }
  }

  lemma SimStoreDlq(cfg: Config, s: State, w: nat, now: Time, id: JobId)
    requires s.ledger.Keys == s.jobs.Keys && Enabled(cfg, s, StoreDlq(w, now, true)) && id in s.jobs
    requires PhaseOk(cfg, s, s.workers[w])
    ensures Projects(cfg, s, StoreDlq(w, now, true), id)
  {
    var p := s.workers[w];
    HoldsMember(cfg, s.workers, w, id);
    HoldsUpdate(cfg, s.workers, w, Idle, id);
    if !Carries(p.batch, id) {
      HoldsAbsent(cfg, s.workers, w, id);
    } else if CarriesEarly(cfg, p.batch, id) {
      var job :| job in p.batch && job.id == id && HasRetryLeft(job, cfg.retryMax);
      SplitMembers(p.batch, cfg.retryMax);
      assert job in RetryJobs(p.batch, cfg.retryMax);
    }
  }

  /** With distinct rows, a job of a refused batch goes to exactly one of the two marks. */
  lemma RetryOrSpent(cfg: Config, t: Table, batch: seq<Job>, id: JobId)
    requires Reads(t, batch)
    ensures Carries(RetryJobs(batch, cfg.retryMax), id) <==> CarriesEarly(cfg, batch, id)
    ensures Carries(SpentJobs(batch, cfg.retryMax), id) <==> Carries(batch, id) && !CarriesEarly(cfg, batch, id)
    ensures !CarriesEarly(cfg, SpentJobs(batch, cfg.retryMax), id)
  {
    SplitMembers(batch, cfg.retryMax);
    if Carries(batch, id) {
      var job :| job in batch && job.id == id;
      assert job in RetryJobs(batch, cfg.retryMax) || job in SpentJobs(batch, cfg.retryMax);
    }
  }

  lemma SimStoreRetry(cfg: Config, s: State, w: nat, now: Time, jitter: real, id: JobId)
    requires s.ledger.Keys == s.jobs.Keys && Enabled(cfg, s, StoreRetry(w, now, jitter, true)) && id in s.jobs
    requires PhaseOk(cfg, s, s.workers[w])
    ensures Projects(cfg, s, StoreRetry(w, now, jitter, true), id)
  {
    var p := s.workers[w];
    var retry := RetryJobs(p.batch, cfg.retryMax);
    RetryOrSpent(cfg, s.jobs, p.batch, id);
    RetryHolds(cfg, s, w, id);
    BackoffWindow(retry[0].row.attempts + 1, jitter);
    var m := RetryMark(p, now, jitter, cfg.retryMax);
    RetryView(cfg, s, Apply(cfg, s, StoreRetry(w, now, jitter, true)), w, retry, m, now, id);
  }

  lemma RetryView(cfg: Config, s: State, s': State, w: nat, retry: seq<Job>, m: Mark, now: Time, id: JobId)
    requires id in s.jobs && id in s.ledger && now <= s.clock && w < |s.workers| && s.workers[w].Refused?
    requires Carries(retry, id) <==> CarriesEarly(cfg, s.workers[w].batch, id)
    requires m.MarkRetry? && now + MIN_BACKOFF <= m.nextAt <= now + MAX_BACKOFF
    requires Carries(s.workers[w].batch, id) ==> m.http in Codes(s.sends, id)
    requires s'.clock == s.clock && s'.ledger == s.ledger && s'.sends == s.sends
    requires s'.jobs == MarkTable(s.jobs, retry, m, now)
    requires HoldsOf(cfg, s'.workers, id) == (
               if Carries(retry, id) then HoldsOf(cfg, s.workers, id) - {w} else HoldsOf(cfg, s.workers, id))
    ensures var v := ViewOf(cfg, s, id);
            if Carries(retry, id)
            then ViewEnabled(cfg, v, VMark(w, m, now)) && ViewOf(cfg, s', id) == ViewApply(cfg, v, VMark(w, m, now))
            else ViewOf(cfg, s', id) == v
    ensures Carries(retry, id) ==> Carries(s.workers[w].batch, id)
  {
    HoldsMember(cfg, s.workers, w, id);
  }

  lemma RetryHolds(cfg: Config, s: State, w: nat, id: JobId)
    requires w < |s.workers| && s.workers[w].Refused? && Reads(s.jobs, s.workers[w].batch)
    ensures var p := s.workers[w];
            var spent := SpentJobs(p.batch, cfg.retryMax);
            var q := if spent == [] then Idle else HalfMarked(spent, p.at, p.code, p.error);
            HoldsOf(cfg, s.workers[w := q], id) == (
              if CarriesEarly(cfg, p.batch, id) then HoldsOf(cfg, s.workers, id) - {w} else HoldsOf(cfg, s.workers, id))
  {
    var p := s.workers[w];
    var spent := SpentJobs(p.batch, cfg.retryMax);
    var q := if spent == [] then Idle else HalfMarked(spent, p.at, p.code, p.error);
    RetryOrSpent(cfg, s.jobs, p.batch, id);
    HoldsMember(cfg, s.workers, w, id);
    HoldsUpdate(cfg, s.workers, w, q, id);
    if !Carries(p.batch, id) {
      HoldsAbsent(cfg, s.workers, w, id);
    } else if !CarriesEarly(cfg, p.batch, id) {
      assert HoldOf(cfg, q, id) == HoldOf(cfg, p, id);
      assert HoldsOf(cfg, s.workers[w := q], id) == HoldsOf(cfg, s.workers, id);
    }
  }

  lemma SimMaintenance(cfg: Config, s: State, step: Step, id: JobId)
    requires s.ledger.Keys == s.jobs.Keys && Enabled(cfg, s, step) && id in s.jobs
    requires step.Tick? || step.RequeueStale? || step.Replay? || step.RetryNow?
    ensures Projects(cfg, s, step, id)
  {
    var s' := Apply(cfg, s, step);
    assert s'.workers == s.workers && s'.sends == s.sends;
  }

  lemma SimEnqueue(cfg: Config, s: State, step: Step, id: JobId)
    requires s.ledger.Keys == s.jobs.Keys && Enabled(cfg, s, step) && id in s.jobs
    requires step.Enqueue?
    ensures Projects(cfg, s, step, id)
  {
    EnqueuedRows(s.jobs, step.envelopeFrom, step.msgs, step.ids, step.now);
  }

  /** Every step of the protocol is, for every job, one step of the one-job machine. */
  lemma Simulates(cfg: Config, s: State, step: Step, id: JobId)
    requires Global(cfg, s) && Enabled(cfg, s, step) && id in s.jobs
    ensures Projects(cfg, s, step, id)
  {
    match step
    case Enqueue(_, _, _, _) => SimEnqueue(cfg, s, step, id);
    case Claim(w, now, order, reread) => SimClaim(cfg, s, w, now, order, reread, id);
    case SendOk(w, bulkId) => SimSendOk(cfg, s, w, bulkId, id);
    case SendFail(w, code, error) => SimSendFail(cfg, s, w, code, error, id);
    case StoreSent(w, now, commits) =>
      if commits {
        assert PhaseOk(cfg, s, s.workers[w]);
        SimStoreSent(cfg, s, w, now, id);
      } else {
        SimForget(cfg, s, w, id);
      }
    case StoreRetry(w, now, jitter, commits) =>
      if commits {
        assert PhaseOk(cfg, s, s.workers[w]);
        SimStoreRetry(cfg, s, w, now, jitter, id);
      } else {
        SimForget(cfg, s, w, id);
      }
    case StoreDlq(w, now, commits) =>
      if commits {
        assert PhaseOk(cfg, s, s.workers[w]);
        SimStoreDlq(cfg, s, w, now, id);
      } else {
        SimForget(cfg, s, w, id);
      }
    case Crash(w) => SimForget(cfg, s, w, id);
    case _ => SimMaintenance(cfg, s, step, id);
  }
}
