/** What the protocol promises about delivery, in every run and under every interleaving. */
module Delivery {
  import opened Prelude
  import opened JobTable
  import opened BatchCut
  import opened Dispatch
  import opened Protocol
  import opened JobView
  import opened Simulation
  import opened Invariant

  // ----- Duplicates and retries

  /**
   At-least-once made exact: late markers, crashes, failed marks, replays and retry-now included, a job is
   accepted at most once more than it was requeued as stale.
   */
  lemma DuplicateBound(cfg: Config, clock: Time, steps: seq<Step>, id: JobId)
    requires ValidConfig(cfg) && Executable(cfg, Init(cfg, clock), steps)
    requires id in Exec(cfg, Init(cfg, clock), steps).jobs
    ensures var s := Exec(cfg, Init(cfg, clock), steps);
            id in s.ledger && AcceptedCount(s.sends, id) <= 1 + s.ledger[id].requeues
  {
    Reachable(cfg, clock, steps);
    assert DuplicateInv(ViewOf(cfg, Exec(cfg, Init(cfg, clock), steps), id));
  }

  /**
   The attempt counter overshoots the retry limit by at most one per further worker and one per replay,
   although retry decisions are taken on snapshots of any age.
   */
  lemma RetryBudget(cfg: Config, clock: Time, steps: seq<Step>, id: JobId)
    requires ValidConfig(cfg) && Executable(cfg, Init(cfg, clock), steps)
    requires id in Exec(cfg, Init(cfg, clock), steps).jobs
    ensures var s := Exec(cfg, Init(cfg, clock), steps);
            && id in s.ledger
            && (!s.jobs[id].status.Finished() ==> s.jobs[id].attempts <= AttemptCap(cfg) + s.ledger[id].replays)
            && s.jobs[id].attempts <= AttemptCap(cfg) + 1 + s.ledger[id].replays
            && AttemptCap(cfg) <= cfg.retryMax + cfg.workers - 2
  {
    Reachable(cfg, clock, steps);
    assert BudgetInv(cfg, ViewOf(cfg, Exec(cfg, Init(cfg, clock), steps), id));
  }

  /** Every counted attempt was a real API call that carried the job. */
  lemma AttemptsAreCalls(cfg: Config, clock: Time, steps: seq<Step>, id: JobId)
    requires ValidConfig(cfg) && Executable(cfg, Init(cfg, clock), steps)
    requires id in Exec(cfg, Init(cfg, clock), steps).jobs
    ensures var s := Exec(cfg, Init(cfg, clock), steps);
            s.jobs[id].attempts <= AcceptedCount(s.sends, id) + RejectedCount(s.sends, id)
  {
    Reachable(cfg, clock, steps);
    assert CallInv(ViewOf(cfg, Exec(cfg, Init(cfg, clock), steps), id));
  }

  /** The step writes a mark on this job while its row is processing. */
  ghost predicate MarksNow(cfg: Config, s: State, step: Step, id: JobId)
    requires Enabled(cfg, s, step)
  {
    id in s.jobs && s.jobs[id].status.Processing? && Project(cfg, s, step, id).VMark?
  }

  ghost function EffectiveMarks(cfg: Config, s: State, steps: seq<Step>, id: JobId): nat
    requires Executable(cfg, s, steps)
    decreases |steps|
  {
    if steps == [] then 0
    else Bit(MarksNow(cfg, s, steps[0], id)) + EffectiveMarks(cfg, Apply(cfg, s, steps[0]), steps[1..], id)
  }

  lemma AttemptStep(cfg: Config, v: View, vs: ViewStep)
    requires ViewEnabled(cfg, v, vs)
    ensures ViewApply(cfg, v, vs).row.attempts == v.row.attempts + Bit(vs.VMark? && v.row.status.Processing?)
  {}

  /** Nothing but a mark that finds its row processing counts an attempt, and each such mark counts one. */
  lemma {:induction false} AttemptsAreMarks(cfg: Config, s: State, steps: seq<Step>, id: JobId)
    requires Global(cfg, s) && Executable(cfg, s, steps) && id in s.jobs
    ensures id in Exec(cfg, s, steps).jobs
    ensures Exec(cfg, s, steps).jobs[id].attempts == s.jobs[id].attempts + EffectiveMarks(cfg, s, steps, id)
    decreases |steps|
  {
    if steps != [] {
      Simulates(cfg, s, steps[0], id);
      AttemptStep(cfg, ViewOf(cfg, s, id), Project(cfg, s, steps[0], id));
      GlobalStep(cfg, s, steps[0]);
      AttemptsAreMarks(cfg, Apply(cfg, s, steps[0]), steps[1..], id);
    }
  }

  /** Exactly the processing rows carry a lease, so a stale requeue can miss none of them for long. */
  lemma LeasesCoherent(cfg: Config, clock: Time, steps: seq<Step>, id: JobId)
    requires ValidConfig(cfg) && Executable(cfg, Init(cfg, clock), steps)
    requires id in Exec(cfg, Init(cfg, clock), steps).jobs
    ensures var s := Exec(cfg, Init(cfg, clock), steps);
            && LeaseCoherent(s.jobs[id])
            && (forall now :: s.jobs[id].status.Processing? && now > s.clock + cfg.lease ==>
                  Stale(s.jobs[id], now, cfg.lease))
            && s.jobs[id].nextAttemptAt <= s.clock + MAX_BACKOFF
  {
    Reachable(cfg, clock, steps);
    assert ShapeInv(cfg, ViewOf(cfg, Exec(cfg, Init(cfg, clock), steps), id));
  }

  // ----- Evidence

  /** The log shows an accepted call, with the bulk id on file, that carried exactly the stored payload of this job. */
  ghost predicate DeliveredAsStored(s: State, id: JobId)
    requires id in s.jobs
  {
    exists r, job :: r in s.sends && r.outcome.Accepted? && s.jobs[id].bulkEmailId == Some(r.outcome.bulkId)
                     && job in r.batch && job.id == id && job.row.payload == s.jobs[id].payload
  }

  /** The log shows a failed call with this status that carried the job. */
  ghost predicate RefusedWith(s: State, id: JobId, code: int) {
    exists r :: r in s.sends && r.outcome == Rejected(code) && Carries(r.batch, id)
  }

  /**
   sent is backed by an accepted call, any HTTP status on file by a failed one, and dlq by a status that is
   permanent or a spent retry budget.
   */
  lemma StatusEvidence(cfg: Config, clock: Time, steps: seq<Step>, id: JobId)
    requires ValidConfig(cfg) && Executable(cfg, Init(cfg, clock), steps)
    requires id in Exec(cfg, Init(cfg, clock), steps).jobs
    ensures var s := Exec(cfg, Init(cfg, clock), steps);
            var row := s.jobs[id];
            && (row.status.Sent? ==> DeliveredAsStored(s, id))
            && (row.lastHttpStatus.Some? ==> RefusedWith(s, id, row.lastHttpStatus.value))
            && (row.status.Dlq? ==>
                  row.lastHttpStatus.Some?
                  && (ClassifyFailure(row.lastHttpStatus.value, true) == Permanent || row.attempts >= cfg.retryMax))
  {
    Reachable(cfg, clock, steps);
    var s := Exec(cfg, Init(cfg, clock), steps);
    assert EvidenceInv(cfg, ViewOf(cfg, s, id));
    if s.jobs[id].status.Sent? {
      var bulkId := s.jobs[id].bulkEmailId.value;
      var r :| r in s.sends && r.outcome.Accepted? && Carries(r.batch, id) && r.outcome.bulkId == bulkId;
      var job :| job in r.batch && job.id == id;
      assert Reads(s.jobs, r.batch);
    }
  }

  // ----- Nothing is lost

  /** What one step, and so every run, leaves behind for a job. */
  ghost predicate Later(r: Row, r': Row) {
    && SameLetter(r, r')
    && r.attempts <= r'.attempts
    && (r.status.Sent? ==> r' == r)
  }

  ghost predicate AllLater(t: Table, t': Table) {
    forall id :: id in t ==> id in t' && Later(t[id], t'[id])
  }

  lemma LaterTrans(a: Table, b: Table, c: Table)
    requires AllLater(a, b) && AllLater(b, c)
    ensures AllLater(a, c)
  {}

  lemma LaterStep(cfg: Config, v: View, vs: ViewStep)
    requires ViewEnabled(cfg, v, vs)
    ensures Later(v.row, ViewApply(cfg, v, vs).row)
  {}

  function EnqueuedBy(steps: seq<Step>): nat {
    if steps == [] then 0 else (if steps[0].Enqueue? then |steps[0].ids| else 0) + EnqueuedBy(steps[1..])
  }

  /**
   Rows stay forever with their letters, attempts never shrink, a sent row is never touched again, and the
   table holds exactly the jobs ever enqueued.
   */
  lemma {:induction false} NothingLost(cfg: Config, s: State, steps: seq<Step>)
    requires Global(cfg, s) && Executable(cfg, s, steps)
    ensures AllLater(s.jobs, Exec(cfg, s, steps).jobs)
    ensures |Exec(cfg, s, steps).jobs| == |s.jobs| + EnqueuedBy(steps)
    decreases |steps|
  {
    if steps != [] {
      var t := Apply(cfg, s, steps[0]);
      RowsStep(cfg, s, steps[0]);
      SizeStep(cfg, s, steps[0]);
      GlobalStep(cfg, s, steps[0]);
      NothingLost(cfg, t, steps[1..]);
      LaterTrans(s.jobs, t.jobs, Exec(cfg, s, steps).jobs);
    }
  }

  lemma RowsStep(cfg: Config, s: State, step: Step)
    requires Global(cfg, s) && Enabled(cfg, s, step)
    ensures AllLater(s.jobs, Apply(cfg, s, step).jobs)
  {
    forall id | id in s.jobs
      ensures id in Apply(cfg, s, step).jobs && Later(s.jobs[id], Apply(cfg, s, step).jobs[id])
    {
      Simulates(cfg, s, step, id);
      LaterStep(cfg, ViewOf(cfg, s, id), Project(cfg, s, step, id));
    }
  }

  lemma SizeStep(cfg: Config, s: State, step: Step)
    requires Global(cfg, s) && Enabled(cfg, s, step)
    ensures |Apply(cfg, s, step).jobs| == |s.jobs| + (if step.Enqueue? then |step.ids| else 0)
  {
    KeysStep(cfg, s, step);
    if step.Enqueue? {
      EnqueuedRows(s.jobs, step.envelopeFrom, step.msgs, step.ids, step.now);
    } else {
      assert |Apply(cfg, s, step).jobs.Keys| == |s.jobs.Keys|;
    }
  }

  /** Ids handed back by an enqueue keep naming those messages for the rest of the run. */
  lemma EnqueuedForever(cfg: Config, s: State, now: Time, from: string, msgs: seq<Message>, ids: seq<JobId>,
                        steps: seq<Step>, i: nat)
    requires Global(cfg, s) && Executable(cfg, s, [Enqueue(now, from, msgs, ids)] + steps)
    requires i < |ids|
    ensures var s' := Exec(cfg, s, [Enqueue(now, from, msgs, ids)] + steps);
            |msgs| == |ids| && msgs[i].recipients != []
            && ids[i] in s'.jobs && Later(NewRow(from, msgs[i], now), s'.jobs[ids[i]])
  {
    var all := [Enqueue(now, from, msgs, ids)] + steps;
    assert all[0] == Enqueue(now, from, msgs, ids) && all[1..] == steps;
    EnqueuedRows(s.jobs, from, msgs, ids, now);
    GlobalStep(cfg, s, all[0]);
    NothingLost(cfg, Apply(cfg, s, all[0]), steps);
  }

  // ----- Batch limits

  /** Length of the JSON array body: the payloads, the commas between them and the two brackets. */
  function BodyLength(js: seq<Job>): nat {
    PayloadBytes(js) + |js| + 1
  }

  function EffectiveBatchMaxCount(batchMaxCount: int, apiCap: int): (m: int)
    ensures m <= batchMaxCount && m <= apiCap && m in {batchMaxCount, apiCap}
  {
    if batchMaxCount < apiCap then batchMaxCount else apiCap
  }

  /** Every API call of every run is within the count caps, and within the byte cap unless it is a single job. */
  lemma EverySendWithinLimits(cfg: Config, clock: Time, steps: seq<Step>, r: Send, batchMaxCount: int, apiCap: int)
    requires ValidConfig(cfg) && Executable(cfg, Init(cfg, clock), steps)
    requires r in Exec(cfg, Init(cfg, clock), steps).sends
    requires cfg.maxCount == EffectiveBatchMaxCount(batchMaxCount, apiCap)
    ensures 1 <= |r.batch| <= 500 && |r.batch| <= batchMaxCount && |r.batch| <= apiCap && |r.batch| <= cfg.claimLimit
    ensures |r.batch| > 1 ==> BodyLength(r.batch) <= cfg.maxBytes
    ensures forall a, b :: a in r.batch && b in r.batch && a.id == b.id ==> a == b
  {
    Reachable(cfg, clock, steps);
    assert WithinLimits(cfg, r.batch) && Reads(Exec(cfg, Init(cfg, clock), steps).jobs, r.batch);
    OverheadCovers(r.batch);
  }
}
