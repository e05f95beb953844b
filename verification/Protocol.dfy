/**
 The lease queue and its dispatch workers as one concurrent protocol.
 Each SQL transaction, each API call and each crash is one atomic step; steps of different workers, of the
 SMTP side, of maintenance and of the operator interleave freely. A step carries every choice made outside
 the model (which rows the query lists first, what the API answers, whether a mark commits), so a run is a
 sequence of steps.
 */
module Protocol {
  import opened Prelude
  import opened JobTable
  import opened BatchCut
  import opened Dispatch

  datatype Config = Config(
    workers: nat,
    claimLimit: int,
    lease: Time,
    maxCount: int,
    maxBytes: int,
    retryMax: int,
    workerId: string)

  /** The bounds ValidateCommon enforces before the relay starts. */
  predicate ValidConfig(cfg: Config) {
    && cfg.workers >= 1 && cfg.claimLimit >= 1 && cfg.lease > 0
    && 1 <= cfg.maxCount <= 500 && cfg.maxBytes >= 1024 && cfg.retryMax >= 1
  }

  /** Where a worker is in its loop, with the batch as it read it when claiming. */
  datatype Phase =
    | Idle
    | Claimed(batch: seq<Job>, at: Time)
    | Acked(batch: seq<Job>, at: Time, bulkId: string)
    | Refused(batch: seq<Job>, at: Time, code: int, error: string)
    | HalfMarked(batch: seq<Job>, at: Time, code: int, error: string)

  function BatchOf(p: Phase): seq<Job> {
    if p.Idle? then [] else p.batch
  }

  datatype Outcome = Accepted(bulkId: string) | Rejected(code: int)

  /** One call of the bulk API, as it ended for the caller. */
  datatype Send = Send(worker: nat, batch: seq<Job>, outcome: Outcome)

  /**
   History of one job: stale requeues and DLQ replays so far, acceptances whose mark was lost, and, for the
   current processing epoch, the worker that claimed it and whether that worker's send was accepted.
   */
  datatype Entry = Entry(requeues: nat, replays: nat, lostAcks: nat, owner: nat, epochAccepted: bool)

  datatype State = State(
    clock: Time,
    jobs: Table,
    workers: seq<Phase>,
    ledger: map<JobId, Entry>,
    sends: seq<Send>)

  datatype Step =
    | Tick(elapsed: nat)
    | Enqueue(now: Time, envelopeFrom: string, msgs: seq<Message>, ids: seq<JobId>)
    | Claim(w: nat, now: Time, order: seq<JobId>, reread: seq<JobId>)
    | SendOk(w: nat, bulkId: string)
    | SendFail(w: nat, code: int, error: string)
    | StoreSent(w: nat, now: Time, commits: bool)
    | StoreRetry(w: nat, now: Time, jitter: real, commits: bool)
    | StoreDlq(w: nat, now: Time, commits: bool)
    | Crash(w: nat)
    | RequeueStale(now: Time)
    | Replay(ids: seq<JobId>, now: Time)
    | RetryNow(now: Time)

  function Init(cfg: Config, clock: Time): State {
    State(clock, map[], seq(cfg.workers, _ => Idle), map[], [])
  }

  ghost predicate Enabled(cfg: Config, s: State, step: Step) {
    match step
    case Tick(_) => true
    case Enqueue(now, _, msgs, ids) => now <= s.clock && Enqueueable(s.jobs, msgs, ids)
    case Claim(w, now, order, reread) =>
      && w < |s.workers| && s.workers[w].Idle? && now <= s.clock && IsEligibleOrder(s.jobs, now, order)
      && var ids := Taken(cfg, s, order);
        IsReread(ClaimTable(s.jobs, ids, cfg.workerId, now), ids, cfg.workerId, reread)
    case SendOk(w, _) => w < |s.workers| && s.workers[w].Claimed?
    case SendFail(w, _, _) => w < |s.workers| && s.workers[w].Claimed?
    case StoreSent(w, now, _) => w < |s.workers| && s.workers[w].Acked? && now <= s.clock
    case StoreRetry(w, now, jitter, _) =>
      && w < |s.workers| && s.workers[w].Refused? && now <= s.clock && 0.8 <= jitter <= 1.2
      && ClassifyFailure(s.workers[w].code, true) == RetryLater
      && RetryJobs(s.workers[w].batch, cfg.retryMax) != []
    case StoreDlq(w, now, _) =>
      && w < |s.workers| && now <= s.clock
      && (s.workers[w].HalfMarked?
          || (s.workers[w].Refused?
              && (ClassifyFailure(s.workers[w].code, true) == Permanent
                  || RetryJobs(s.workers[w].batch, cfg.retryMax) == [])))
    case Crash(w) => w < |s.workers|
    case RequeueStale(now) => now <= s.clock
    case Replay(_, now) => now <= s.clock
    case RetryNow(now) => now <= s.clock
  }

  /** The ids a claim step takes. */
  ghost function Taken(cfg: Config, s: State, order: seq<JobId>): (ids: seq<JobId>)
    requires forall id :: id in order ==> id in s.jobs
    ensures forall id :: id in ids ==> id in s.jobs
  {
    Selected(s.jobs, order, cfg.claimLimit, cfg.maxCount, cfg.maxBytes)
  }

  /** The backoff of a whole batch comes from its first retry job. */
  function RetryMark(p: Phase, now: Time, jitter: real, retryMax: int): Mark
    requires p.Refused? && RetryJobs(p.batch, retryMax) != []
  {
    var first := RetryJobs(p.batch, retryMax)[0];
    MarkRetry(now + JitteredBackoff(first.row.attempts + 1, jitter), p.error, p.code)
  }

  // ----- History updates

  ghost function OpenEpochs(ledger: map<JobId, Entry>, ids: seq<JobId>, w: nat): map<JobId, Entry> {
    map id | id in ledger :: if id in ids then ledger[id].(owner := w, epochAccepted := false) else ledger[id]
  }

  ghost function NoteAccepted(s: State, w: nat, batch: seq<Job>): map<JobId, Entry> {
    map id | id in s.ledger ::
      if Carries(batch, id) && id in s.jobs && s.jobs[id].status.Processing? && s.ledger[id].owner == w
      then s.ledger[id].(epochAccepted := true) else s.ledger[id]
  }

  ghost function NoteLost(ledger: map<JobId, Entry>, p: Phase): map<JobId, Entry> {
    map id | id in ledger ::
      if p.Acked? && Carries(p.batch, id) then ledger[id].(lostAcks := ledger[id].lostAcks + 1) else ledger[id]
  }

  ghost function NoteRequeued(s: State, now: Time, lease: Time): map<JobId, Entry> {
    map id | id in s.ledger ::
      if id in s.jobs && Stale(s.jobs[id], now, lease)
      then s.ledger[id].(requeues := s.ledger[id].requeues + 1) else s.ledger[id]
  }

  ghost function NoteReplayed(s: State, ids: seq<JobId>): map<JobId, Entry> {
    map id | id in s.ledger ::
      if id in s.jobs && s.jobs[id].status.Dlq? && id in ids
      then s.ledger[id].(replays := s.ledger[id].replays + 1) else s.ledger[id]
  }

  /** New jobs start with an empty history. */
  ghost function NoteEnqueued(ledger: map<JobId, Entry>, ids: seq<JobId>): map<JobId, Entry> {
    map id | id in ledger.Keys + Elems(ids) ::
      if id in ledger then ledger[id] else Entry(0, 0, 0, 0, false)
  }

  // ----- The effect of each step

  /** A worker whose transaction failed, or that died, forgets its batch. */
  ghost function Forget(s: State, w: nat): State
    requires w < |s.workers|
  {
    s.(workers := s.workers[w := Idle], ledger := NoteLost(s.ledger, s.workers[w]))
  }

  ghost function Apply(cfg: Config, s: State, step: Step): State
    requires Enabled(cfg, s, step)
  {
    match step
    case Tick(elapsed) => s.(clock := s.clock + elapsed)
    case Enqueue(now, from, msgs, ids) =>
      s.(jobs := EnqueueTable(s.jobs, from, msgs, ids, now), ledger := NoteEnqueued(s.ledger, ids))
    case Claim(w, now, order, reread) =>
      var ids := Taken(cfg, s, order);
      if ids == [] then s
      else
        var jobs := ClaimTable(s.jobs, ids, cfg.workerId, now);
        s.(jobs := jobs,
           workers := s.workers[w := Claimed(JobsAt(jobs, reread), now)],
           ledger := OpenEpochs(s.ledger, ids, w))
    case SendOk(w, bulkId) =>
      var p := s.workers[w];
      s.(workers := s.workers[w := Acked(p.batch, p.at, bulkId)],
         ledger := NoteAccepted(s, w, p.batch),
         sends := s.sends + [Send(w, p.batch, Accepted(bulkId))])
    case SendFail(w, code, error) =>
      var p := s.workers[w];
      s.(workers := s.workers[w := Refused(p.batch, p.at, code, error)],
         sends := s.sends + [Send(w, p.batch, Rejected(code))])
    case StoreSent(w, now, commits) =>
      var p := s.workers[w];
      if !commits then Forget(s, w)
      else s.(jobs := MarkTable(s.jobs, p.batch, MarkSent(p.bulkId), now), workers := s.workers[w := Idle])
    case StoreRetry(w, now, jitter, commits) =>
      var p := s.workers[w];
      if !commits then Forget(s, w)
      else
        var spent := SpentJobs(p.batch, cfg.retryMax);
        s.(jobs := MarkTable(s.jobs, RetryJobs(p.batch, cfg.retryMax), RetryMark(p, now, jitter, cfg.retryMax), now),
           workers := s.workers[w := if spent == [] then Idle else HalfMarked(spent, p.at, p.code, p.error)])
    case StoreDlq(w, now, commits) =>
      var p := s.workers[w];
      if !commits then Forget(s, w)
      else s.(jobs := MarkTable(s.jobs, p.batch, MarkDlq(p.error, p.code), now), workers := s.workers[w := Idle])
    case Crash(w) => Forget(s, w)
    case RequeueStale(now) =>
      s.(jobs := RequeueTable(s.jobs, now, cfg.lease), ledger := NoteRequeued(s, now, cfg.lease))
    case Replay(ids, now) => s.(jobs := ReplayTable(s.jobs, ids, now), ledger := NoteReplayed(s, ids))
    case RetryNow(now) => s.(jobs := RetryNowTable(s.jobs, now))
  }

  // ----- Runs

  ghost predicate Executable(cfg: Config, s: State, steps: seq<Step>)
    decreases |steps|
  {
    steps == [] || (Enabled(cfg, s, steps[0]) && Executable(cfg, Apply(cfg, s, steps[0]), steps[1..]))
  }

  ghost function Exec(cfg: Config, s: State, steps: seq<Step>): State
    requires Executable(cfg, s, steps)
    decreases |steps|
  {
    if steps == [] then s else Exec(cfg, Apply(cfg, s, steps[0]), steps[1..])
  }

  lemma ExecCons(cfg: Config, s: State, step: Step, rest: seq<Step>)
    requires Enabled(cfg, s, step) && Executable(cfg, Apply(cfg, s, step), rest)
    ensures Executable(cfg, s, [step] + rest)
    ensures Exec(cfg, s, [step] + rest) == Exec(cfg, Apply(cfg, s, step), rest)
  {
    assert ([step] + rest)[1..] == rest;
  }

  lemma ExecOne(cfg: Config, s: State, a: Step)
    requires Enabled(cfg, s, a)
    ensures Executable(cfg, s, [a]) && Exec(cfg, s, [a]) == Apply(cfg, s, a)
  {
    ExecCons(cfg, s, a, []);
    assert [a] + [] == [a];
  }

  lemma ExecTwo(cfg: Config, s: State, a: Step, b: Step)
    requires Enabled(cfg, s, a) && Enabled(cfg, Apply(cfg, s, a), b)
    ensures Executable(cfg, s, [a, b]) && Exec(cfg, s, [a, b]) == Apply(cfg, Apply(cfg, s, a), b)
  {
    ExecOne(cfg, Apply(cfg, s, a), b);
    ExecCons(cfg, s, a, [b]);
    assert [a] + [b] == [a, b];
  }

  lemma ExecThree(cfg: Config, s: State, a: Step, b: Step, c: Step)
    requires Enabled(cfg, s, a) && Enabled(cfg, Apply(cfg, s, a), b) && Enabled(cfg, Apply(cfg, Apply(cfg, s, a), b), c)
    ensures Executable(cfg, s, [a, b, c]) && Exec(cfg, s, [a, b, c]) == Apply(cfg, Apply(cfg, Apply(cfg, s, a), b), c)
  {
    ExecTwo(cfg, Apply(cfg, s, a), b, c);
    ExecCons(cfg, s, a, [b, c]);
    assert [a] + [b, c] == [a, b, c];
  }

  lemma {:induction false} ExecAppend(cfg: Config, s: State, a: seq<Step>, b: seq<Step>)
    requires Executable(cfg, s, a) && Executable(cfg, Exec(cfg, s, a), b)
    ensures Executable(cfg, s, a + b) && Exec(cfg, s, a + b) == Exec(cfg, Exec(cfg, s, a), b)
    decreases |a|
  {
    if a == [] {
      assert a + b == b;
    } else {
      ExecAppend(cfg, Apply(cfg, s, a[0]), a[1..], b);
      assert (a + b)[1..] == a[1..] + b;
    }
  }

  /** How many API calls the relay saw accepted with this job aboard. */
  ghost function AcceptedCount(sends: seq<Send>, id: JobId): nat {
    if sends == [] then 0
    else
      var last := sends[|sends| - 1];
      AcceptedCount(sends[..|sends| - 1], id) + Bit(last.outcome.Accepted? && Carries(last.batch, id))
  }

  ghost function RejectedCount(sends: seq<Send>, id: JobId): nat {
    if sends == [] then 0
    else
      var last := sends[|sends| - 1];
      RejectedCount(sends[..|sends| - 1], id) + Bit(last.outcome.Rejected? && Carries(last.batch, id))
  }

  /** The bulk ids answered to calls carrying this job. */
  ghost function BulkIds(sends: seq<Send>, id: JobId): set<string> {
    set r | r in sends && r.outcome.Accepted? && Carries(r.batch, id) :: r.outcome.bulkId
  }

  /** The status codes of failed calls carrying this job. */
  ghost function Codes(sends: seq<Send>, id: JobId): set<int> {
    set r | r in sends && r.outcome.Rejected? && Carries(r.batch, id) :: r.outcome.code
  }

  lemma CountAppend(sends: seq<Send>, r: Send, id: JobId)
    ensures AcceptedCount(sends + [r], id)
         == AcceptedCount(sends, id) + Bit(r.outcome.Accepted? && Carries(r.batch, id))
    ensures RejectedCount(sends + [r], id)
         == RejectedCount(sends, id) + Bit(r.outcome.Rejected? && Carries(r.batch, id))
    ensures BulkIds(sends + [r], id)
         == BulkIds(sends, id) + (if r.outcome.Accepted? && Carries(r.batch, id) then {r.outcome.bulkId} else {})
    ensures Codes(sends + [r], id)
         == Codes(sends, id) + (if r.outcome.Rejected? && Carries(r.batch, id) then {r.outcome.code} else {})
  {
    assert (sends + [r])[..|sends|] == sends;
    assert forall x :: x in sends + [r] <==> x in sends || x == r;
  }
}
