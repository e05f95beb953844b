/** The protocol invariant: every job's view is sound, in every state of every run. */
module Invariant {
  import opened Prelude
  import opened JobTable
  import opened BatchCut
  import opened Dispatch
  import opened Protocol
  import opened JobView
  import opened Simulation

  ghost predicate Inv(cfg: Config, s: State) {
    && Global(cfg, s)
    && (forall id :: id in s.jobs ==> ViewInv(cfg, ViewOf(cfg, s, id)))
  }

  // ----- The table only grows, and no letter changes

  ghost predicate Extends(t: Table, t': Table) {
    forall id :: id in t ==> id in t' && SameLetter(t[id], t'[id])
  }

  lemma LetterStep(cfg: Config, v: View, vs: ViewStep)
    requires ViewEnabled(cfg, v, vs)
    ensures SameLetter(v.row, ViewApply(cfg, v, vs).row)
  {}

  lemma ExtendsStep(cfg: Config, s: State, step: Step)
    requires Global(cfg, s) && Enabled(cfg, s, step)
    ensures Extends(s.jobs, Apply(cfg, s, step).jobs)
  {
    forall id | id in s.jobs
      ensures id in Apply(cfg, s, step).jobs && SameLetter(s.jobs[id], Apply(cfg, s, step).jobs[id])
    {
      Simulates(cfg, s, step, id);
      LetterStep(cfg, ViewOf(cfg, s, id), Project(cfg, s, step, id));
    }
  }

  // ----- Phases and log

  lemma ReadsMono(t: Table, t': Table, batch: seq<Job>)
    requires Extends(t, t') && Reads(t, batch)
    ensures Reads(t', batch)
  {}

  lemma PhaseMono(cfg: Config, s: State, s': State, p: Phase)
    requires PhaseOk(cfg, s, p) && Extends(s.jobs, s'.jobs) && s.sends <= s'.sends
    ensures PhaseOk(cfg, s', p)
  {
    ReadsMono(s.jobs, s'.jobs, BatchOf(p));
    assert forall r :: r in s.sends ==> r in s'.sends;
  }

  /** What a claim returns is a batch of distinct rows within the caps. */
  lemma ClaimedOk(cfg: Config, s: State, order: seq<JobId>, reread: seq<JobId>, now: Time)
    requires IsEligibleOrder(s.jobs, now, order) && Taken(cfg, s, order) != []
    requires var ids := Taken(cfg, s, order);
             IsReread(ClaimTable(s.jobs, ids, cfg.workerId, now), ids, cfg.workerId, reread)
    ensures var jobs := ClaimTable(s.jobs, Taken(cfg, s, order), cfg.workerId, now);
            Reads(jobs, JobsAt(jobs, reread)) && WithinLimits(cfg, JobsAt(jobs, reread))
  {
    var ids := Taken(cfg, s, order);
    var jobs := ClaimTable(s.jobs, ids, cfg.workerId, now);
    TakenAll(cfg, s, now, order, reread);
    JobsAtCarries(jobs, reread, ids[0]);
    TakenFits(cfg, s, order, jobs);
    SameBytes(jobs, ids, reread);
  }

  ghost function CostMap(t: Table, ids: set<JobId>): map<JobId, nat>
    requires ids <= t.Keys
  {
    map id | id in ids :: Cost(Job(id, t[id]))
  }

  lemma {:induction false} BytesTotal(t: Table, ids: seq<JobId>)
    requires Distinct(ids) && forall id :: id in ids ==> id in t
    ensures Bytes(JobsAt(t, ids)) == Total(CostMap(t, Elems(ids)))
  {
    if ids == [] {
      assert CostMap(t, Elems(ids)) == map[];
    } else {
      var front, last := ids[..|ids| - 1], ids[|ids| - 1];
      assert ids == front + [last];
      BytesTotal(t, front);
      BytesTotalMore(t, front, last);
    }
  }

  lemma BytesTotalMore(t: Table, front: seq<JobId>, last: JobId)
    requires last !in front && (forall id :: id in front + [last] ==> id in t)
    requires (forall id :: id in front ==> id in t) && Bytes(JobsAt(t, front)) == Total(CostMap(t, Elems(front)))
    ensures Bytes(JobsAt(t, front + [last])) == Total(CostMap(t, Elems(front + [last])))
  {
    assert last in front + [last];
    ElemsAppend(front, last);
    CostMore(t, Elems(front), last);
    assert JobsAt(t, front + [last]) == JobsAt(t, front) + [Job(last, t[last])];
    BytesAppend(JobsAt(t, front), Job(last, t[last]));
  }

  lemma CostMore(t: Table, ids: set<JobId>, id: JobId)
    requires ids <= t.Keys && id in t && id !in ids
    ensures Total(CostMap(t, ids + {id})) == Total(CostMap(t, ids)) + Cost(Job(id, t[id]))
  {
    var m, c := CostMap(t, ids), Cost(Job(id, t[id]));
    TotalUpdate(m, id, c);
    assert CostMap(t, ids + {id}) == m[id := c];
  }

  /** The byte count of a batch does not depend on its order. */
  lemma SameBytes(t: Table, a: seq<JobId>, b: seq<JobId>)
    requires Distinct(a) && Distinct(b) && (forall id :: id in a <==> id in b) && (forall id :: id in a ==> id in t)
    ensures Bytes(JobsAt(t, a)) == Bytes(JobsAt(t, b))
  {
    assert Elems(a) == Elems(b);
    BytesTotal(t, a);
    BytesTotal(t, b);
  }

  lemma TakenFits(cfg: Config, s: State, order: seq<JobId>, jobs: Table)
    requires forall id :: id in order ==> id in s.jobs
    requires forall id :: id in s.jobs ==> id in jobs && jobs[id].payload == s.jobs[id].payload
    requires Taken(cfg, s, order) != []
    ensures WithinLimits(cfg, JobsAt(jobs, Taken(cfg, s, order)))
  {
    var ids := Taken(cfg, s, order);
    var page := Page(order, cfg.claimLimit);
    var js := JobsAt(s.jobs, page);
    SameCost(js[..|ids|], JobsAt(jobs, ids));
  }

  lemma {:induction false} SameCost(a: seq<Job>, b: seq<Job>)
    requires |a| == |b| && forall i :: 0 <= i < |a| ==> a[i].row.payload == b[i].row.payload
    ensures Bytes(a) == Bytes(b)
  {
    if a != [] {
      SameCost(a[..|a| - 1], b[..|b| - 1]);
    }
  }

  /** The phase after a send is backed by the log. */
  lemma SentPhaseOk(cfg: Config, s: State, s': State, p: Phase, q: Phase, r: Send)
    requires PhaseOk(cfg, s, p) && p.Claimed? && s'.jobs == s.jobs && r in s'.sends && r.batch == p.batch
    requires q.Acked? || q.Refused?
    requires q.batch == p.batch && r.outcome == if q.Acked? then Accepted(q.bulkId) else Rejected(q.code)
    ensures PhaseOk(cfg, s', q)
  {}

  /** What remains of a refused batch after the retry mark is still backed by the log. */
  lemma HalfPhaseOk(cfg: Config, s: State, s': State, p: Phase)
    requires PhaseOk(cfg, s, p) && p.Refused? && Extends(s.jobs, s'.jobs) && s'.sends == s.sends
    ensures PhaseOk(cfg, s', HalfMarked(SpentJobs(p.batch, cfg.retryMax), p.at, p.code, p.error))
  {
    ReadsMono(s.jobs, s'.jobs, p.batch);
    var spent := SpentJobs(p.batch, cfg.retryMax);
    SplitMembers(p.batch, cfg.retryMax);
    forall id | Carries(spent, id) ensures Carries(p.batch, id) {
      var job :| job in spent && job.id == id;
      assert job in p.batch;
    }
  }

  /** The phase a step puts its worker in is sound. */
  lemma NewPhaseOk(cfg: Config, s: State, step: Step)
    requires Global(cfg, s) && Enabled(cfg, s, step) && Extends(s.jobs, Apply(cfg, s, step).jobs)
    requires MovesWorker(step)
    ensures PhaseOk(cfg, Apply(cfg, s, step), Apply(cfg, s, step).workers[step.w])
  {
    var s' := Apply(cfg, s, step);
    var p, q := s.workers[step.w], s'.workers[step.w];
    assert PhaseOk(cfg, s, p);
    if step.Claim? && Taken(cfg, s, step.order) != [] {
      ClaimedOk(cfg, s, step.order, step.reread, step.now);
    } else if step.SendOk? || step.SendFail? {
      var r := s'.sends[|s.sends|];
      assert r in s'.sends;
      SentPhaseOk(cfg, s, s', p, q, r);
    } else if q.HalfMarked? {
      HalfPhaseOk(cfg, s, s', p);
    }
  }

  lemma WorkersStep(cfg: Config, s: State, step: Step)
    requires Global(cfg, s) && Enabled(cfg, s, step) && Extends(s.jobs, Apply(cfg, s, step).jobs)
    ensures var s' := Apply(cfg, s, step);
            |s'.workers| == |s.workers| && forall w :: 0 <= w < |s'.workers| ==> PhaseOk(cfg, s', s'.workers[w])
  {
    var s' := Apply(cfg, s, step);
    OnlyOneMoves(cfg, s, step);
    forall w | 0 <= w < |s'.workers| ensures PhaseOk(cfg, s', s'.workers[w]) {
      if s'.workers[w] == s.workers[w] {
        assert PhaseOk(cfg, s, s.workers[w]);
        PhaseMono(cfg, s, s', s.workers[w]);
      } else {
        NewPhaseOk(cfg, s, step);
      }
    }
  }

  /** A step changes the phase of its own worker only. */
  lemma OnlyOneMoves(cfg: Config, s: State, step: Step)
    requires Enabled(cfg, s, step)
    ensures var s' := Apply(cfg, s, step);
            && |s'.workers| == |s.workers| && s.sends <= s'.sends
            && (forall w :: 0 <= w < |s.workers| && s'.workers[w] != s.workers[w] ==> MovesWorker(step) && step.w == w)
  {}

  predicate MovesWorker(step: Step) {
    || step.Claim? || step.SendOk? || step.SendFail?
    || step.StoreSent? || step.StoreRetry? || step.StoreDlq? || step.Crash?
  }

  lemma LogStep(cfg: Config, s: State, step: Step)
    requires Global(cfg, s) && Enabled(cfg, s, step) && Extends(s.jobs, Apply(cfg, s, step).jobs)
    ensures LogOk(cfg, Apply(cfg, s, step))
  {
    var s' := Apply(cfg, s, step);
    forall r | r in s'.sends ensures WithinLimits(cfg, r.batch) && Reads(s'.jobs, r.batch) {
      if r in s.sends {
        ReadsMono(s.jobs, s'.jobs, r.batch);
      } else {
        assert step.SendOk? || step.SendFail?;
        assert PhaseOk(cfg, s, s.workers[step.w]) && r.batch == s.workers[step.w].batch;
        ReadsMono(s.jobs, s'.jobs, r.batch);
      }
    }
  }

  lemma EnqueueKeys(s: State, now: Time, from: string, msgs: seq<Message>, ids: seq<JobId>)
    requires s.ledger.Keys == s.jobs.Keys && Enqueueable(s.jobs, msgs, ids)
    ensures EnqueueTable(s.jobs, from, msgs, ids, now).Keys == NoteEnqueued(s.ledger, ids).Keys
    ensures EnqueueTable(s.jobs, from, msgs, ids, now).Keys == s.jobs.Keys + Elems(ids)
  {
    EnqueuedRows(s.jobs, from, msgs, ids, now);
  }

  lemma KeysStep(cfg: Config, s: State, step: Step)
    requires s.ledger.Keys == s.jobs.Keys && Enabled(cfg, s, step)
    ensures Apply(cfg, s, step).ledger.Keys == Apply(cfg, s, step).jobs.Keys
    ensures !step.Enqueue? ==> Apply(cfg, s, step).jobs.Keys == s.jobs.Keys
  {
    if step.Enqueue? {
      EnqueueKeys(s, step.now, step.envelopeFrom, step.msgs, step.ids);
    }
  }

  lemma GlobalStep(cfg: Config, s: State, step: Step)
    requires Global(cfg, s) && Enabled(cfg, s, step)
    ensures Global(cfg, Apply(cfg, s, step))
  {
    ExtendsStep(cfg, s, step);
    WorkersStep(cfg, s, step);
    LogStep(cfg, s, step);
    KeysStep(cfg, s, step);
  }

  // ----- New jobs

  lemma {:induction false} UnknownNeverSent(sends: seq<Send>, id: JobId)
    requires forall r :: r in sends ==> !Carries(r.batch, id)
    ensures AcceptedCount(sends, id) == 0 && RejectedCount(sends, id) == 0
    ensures BulkIds(sends, id) == {} && Codes(sends, id) == {}
  {
    if sends != [] {
      UnknownNeverSent(sends[..|sends| - 1], id);
      assert sends[|sends| - 1] in sends;
    }
  }

  lemma UnknownUnheld(cfg: Config, s: State, id: JobId)
    requires Global(cfg, s) && id !in s.jobs
    ensures HoldsOf(cfg, s.workers, id) == map[]
    ensures forall r :: r in s.sends ==> !Carries(r.batch, id)
  {
    forall w: nat | w < |s.workers| ensures !Carries(BatchOf(s.workers[w]), id) {
      assert PhaseOk(cfg, s, s.workers[w]);
    }
  }

  lemma NewJobFresh(cfg: Config, s: State, now: Time, from: string, msgs: seq<Message>, ids: seq<JobId>, id: JobId)
    requires Global(cfg, s) && Enabled(cfg, s, Enqueue(now, from, msgs, ids)) && id in ids
    ensures var s' := Apply(cfg, s, Enqueue(now, from, msgs, ids));
            id in s'.jobs && id in s'.ledger && FreshView(ViewOf(cfg, s', id))
  {
    EnqueuedRows(s.jobs, from, msgs, ids, now);
    UnknownUnheld(cfg, s, id);
    UnknownNeverSent(s.sends, id);
  }

  /** A job that was not there before the step is a job just enqueued. */
  lemma Arrival(cfg: Config, s: State, step: Step, id: JobId)
    requires Global(cfg, s) && Enabled(cfg, s, step) && id in Apply(cfg, s, step).jobs && id !in s.jobs
    ensures id in Apply(cfg, s, step).ledger && FreshView(ViewOf(cfg, Apply(cfg, s, step), id))
  {
    KeysStep(cfg, s, step);
    EnqueueKeys(s, step.now, step.envelopeFrom, step.msgs, step.ids);
    NewJobFresh(cfg, s, step.now, step.envelopeFrom, step.msgs, step.ids, id);
  }

  // ----- The invariant over runs

  lemma InvInit(cfg: Config, clock: Time)
    requires ValidConfig(cfg)
    ensures Inv(cfg, Init(cfg, clock))
  {}

  lemma InvStep(cfg: Config, s: State, step: Step)
    requires ValidConfig(cfg) && Inv(cfg, s) && Enabled(cfg, s, step)
    ensures Inv(cfg, Apply(cfg, s, step))
  {
    GlobalStep(cfg, s, step);
    var s' := Apply(cfg, s, step);
    forall id | id in s'.jobs ensures ViewInv(cfg, ViewOf(cfg, s', id)) {
      if id in s.jobs {
        Simulates(cfg, s, step, id);
        ViewInvStep(cfg, ViewOf(cfg, s, id), Project(cfg, s, step, id));
      } else {
        Arrival(cfg, s, step, id);
        ViewInvInit(cfg, ViewOf(cfg, s', id));
      }
    }
  }

  lemma {:induction false} InvRun(cfg: Config, s: State, steps: seq<Step>)
    requires ValidConfig(cfg) && Inv(cfg, s) && Executable(cfg, s, steps)
    ensures Inv(cfg, Exec(cfg, s, steps))
    decreases |steps|
  {
    if steps != [] {
      InvStep(cfg, s, steps[0]);
      InvRun(cfg, Apply(cfg, s, steps[0]), steps[1..]);
    }
  }

  /** Every state of every run, from an empty queue. */
  lemma Reachable(cfg: Config, clock: Time, steps: seq<Step>)
    requires ValidConfig(cfg) && Executable(cfg, Init(cfg, clock), steps)
    ensures Inv(cfg, Exec(cfg, Init(cfg, clock), steps))
  {
    InvInit(cfg, clock);
    InvRun(cfg, Init(cfg, clock), steps);
  }
}
