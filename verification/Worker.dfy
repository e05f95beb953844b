/**
 The dispatcher's code against the protocol: one turn of a worker's loop, undisturbed, is a run of protocol
 steps; and repeated claims cut the queue exactly as splitBatches cuts a list.
 */
module Worker {
  import opened Prelude
  import opened JobTable
  import opened BatchCut
  import opened Dispatch
  import opened Protocol
  import opened Store

  /** How Send ended for the caller. */
  datatype Answer = Delivered(bulkId: string) | Failed(code: int, error: string)

  /** The protocol steps of processBatch: markCommits is for MarkSent or MarkRetry, dlqCommits for MarkDLQ. */
  ghost function TurnSteps(cfg: Config, w: nat, batch: seq<Job>, answer: Answer, now: Time, jitter: real,
                           markCommits: bool, dlqCommits: bool): seq<Step> {
    match answer
    case Delivered(bulkId) => [SendOk(w, bulkId), StoreSent(w, now, markCommits)]
    case Failed(code, error) =>
      if ClassifyFailure(code, true) == Permanent || RetryJobs(batch, cfg.retryMax) == [] then
        [SendFail(w, code, error), StoreDlq(w, now, dlqCommits)]
      else if !markCommits || SpentJobs(batch, cfg.retryMax) == [] then
        [SendFail(w, code, error), StoreRetry(w, now, jitter, markCommits)]
      else
        [SendFail(w, code, error), StoreRetry(w, now, jitter, true), StoreDlq(w, now, dlqCommits)]
  }

  /** The table and phases a run ends with. */
  ghost predicate EndsWith(cfg: Config, s: State, steps: seq<Step>, jobs: Table, workers: seq<Phase>) {
    Executable(cfg, s, steps) && Exec(cfg, s, steps).jobs == jobs && Exec(cfg, s, steps).workers == workers
  }

  lemma {:induction false} AllSpent(batch: seq<Job>, retryMax: int)
    requires RetryJobs(batch, retryMax) == []
    ensures SpentJobs(batch, retryMax) == batch
  {
    if batch != [] {
      var front := batch[..|batch| - 1];
      assert RetryJobs(front, retryMax) == [];
      AllSpent(front, retryMax);
      assert batch == front + [batch[|batch| - 1]];
    }
  }

  /** Partition of a refused batch into the jobs with and without a retry left. */
  method PartitionRefused(batch: seq<Job>, retryMax: int) returns (retryJobs: seq<Job>, dlqJobs: seq<Job>)
    ensures retryJobs == RetryJobs(batch, retryMax) && dlqJobs == SpentJobs(batch, retryMax)
    ensures |retryJobs| + |dlqJobs| == |batch|
  {
    retryJobs, dlqJobs := [], [];
    for i := 0 to |batch|
      invariant retryJobs == RetryJobs(batch[..i], retryMax) && dlqJobs == SpentJobs(batch[..i], retryMax)
      invariant |retryJobs| + |dlqJobs| == i
    {
      assert batch[..i + 1][..i] == batch[..i] && batch[..i + 1][i] == batch[i];
      if batch[i].row.attempts + 1 >= retryMax {
        dlqJobs := dlqJobs + [batch[i]];
      } else {
        retryJobs := retryJobs + [batch[i]];
      }
    }
    assert batch[..|batch|] == batch;
  }

  ghost function Marked(t: Table, batch: seq<Job>, m: Mark, now: Time, commits: bool): Table {
    if commits then MarkTable(t, batch, m, now) else t
  }

  lemma EndsTwo(cfg: Config, s: State, a: Step, b: Step, s1: State, s2: State)
    requires Enabled(cfg, s, a) && s1 == Apply(cfg, s, a) && Enabled(cfg, s1, b) && s2 == Apply(cfg, s1, b)
    ensures EndsWith(cfg, s, [a, b], s2.jobs, s2.workers)
  {
    ExecTwo(cfg, s, a, b);
  }

  lemma EndsThree(cfg: Config, s: State, a: Step, rest: seq<Step>, s1: State, jobs: Table, workers: seq<Phase>)
    requires Enabled(cfg, s, a) && s1 == Apply(cfg, s, a) && EndsWith(cfg, s1, rest, jobs, workers)
    ensures EndsWith(cfg, s, [a] + rest, jobs, workers)
  {
    ExecCons(cfg, s, a, rest);
  }

  lemma TurnSent(cfg: Config, s: State, w: nat, bulkId: string, now: Time, commits: bool)
    requires w < |s.workers| && s.workers[w].Claimed? && now <= s.clock
    ensures EndsWith(cfg, s, [SendOk(w, bulkId), StoreSent(w, now, commits)],
                     Marked(s.jobs, s.workers[w].batch, MarkSent(bulkId), now, commits), s.workers[w := Idle])
  {
    var s1 := Apply(cfg, s, SendOk(w, bulkId));
    var s2 := Apply(cfg, s1, StoreSent(w, now, commits));
    EndsTwo(cfg, s, SendOk(w, bulkId), StoreSent(w, now, commits), s1, s2);
    assert s2.workers == s.workers[w := Idle];
  }

  lemma AfterFail(cfg: Config, s: State, w: nat, code: int, error: string) returns (s1: State)
    requires w < |s.workers| && s.workers[w].Claimed?
    ensures Enabled(cfg, s, SendFail(w, code, error)) && s1 == Apply(cfg, s, SendFail(w, code, error))
    ensures s1.clock == s.clock && s1.jobs == s.jobs && s1.ledger == s.ledger && |s1.workers| == |s.workers|
    ensures s1.workers[w] == Refused(s.workers[w].batch, s.workers[w].at, code, error)
    ensures s1.workers[w := Idle] == s.workers[w := Idle]
  {
    s1 := Apply(cfg, s, SendFail(w, code, error));
  }

  lemma TurnDlq(cfg: Config, s: State, w: nat, code: int, error: string, now: Time, commits: bool)
    requires w < |s.workers| && s.workers[w].Claimed? && now <= s.clock
    requires ClassifyFailure(code, true) == Permanent || RetryJobs(s.workers[w].batch, cfg.retryMax) == []
    ensures EndsWith(cfg, s, [SendFail(w, code, error), StoreDlq(w, now, commits)],
                     Marked(s.jobs, s.workers[w].batch, MarkDlq(error, code), now, commits), s.workers[w := Idle])
  {
    var s1 := AfterFail(cfg, s, w, code, error);
    var s2 := LastDlq(cfg, s1, w, now, commits);
    EndsTwo(cfg, s, SendFail(w, code, error), StoreDlq(w, now, commits), s1, s2);
  }

  /** A dead-letter mark ends the turn. */
  lemma LastDlq(cfg: Config, s: State, w: nat, now: Time, commits: bool) returns (s': State)
    requires Enabled(cfg, s, StoreDlq(w, now, commits))
    ensures var p := s.workers[w];
            && s' == Apply(cfg, s, StoreDlq(w, now, commits)) && s'.workers == s.workers[w := Idle]
            && s'.jobs == Marked(s.jobs, p.batch, MarkDlq(p.error, p.code), now, commits)
  {
    s' := Apply(cfg, s, StoreDlq(w, now, commits));
  }

  ghost function FirstRetry(cfg: Config, batch: seq<Job>, code: int, error: string, now: Time, jitter: real): Mark
    requires RetryJobs(batch, cfg.retryMax) != []
  {
    MarkRetry(now + JitteredBackoff(RetryJobs(batch, cfg.retryMax)[0].row.attempts + 1, jitter), error, code)
  }

  lemma TurnRetry(cfg: Config, s: State, w: nat, code: int, error: string, now: Time, jitter: real, commits: bool)
    requires w < |s.workers| && s.workers[w].Claimed? && now <= s.clock && 0.8 <= jitter <= 1.2
    requires ClassifyFailure(code, true) == RetryLater && RetryJobs(s.workers[w].batch, cfg.retryMax) != []
    requires !commits || SpentJobs(s.workers[w].batch, cfg.retryMax) == []
    ensures var batch := s.workers[w].batch;
            EndsWith(cfg, s, [SendFail(w, code, error), StoreRetry(w, now, jitter, commits)],
                     Marked(s.jobs, RetryJobs(batch, cfg.retryMax),
                            FirstRetry(cfg, batch, code, error, now, jitter), now, commits),
                     s.workers[w := Idle])
  {
    var s1 := AfterFail(cfg, s, w, code, error);
    var s2 := LastRetry(cfg, s1, w, now, jitter, commits);
    EndsTwo(cfg, s, SendFail(w, code, error), StoreRetry(w, now, jitter, commits), s1, s2);
  }

  /** A retry mark that fails, or that leaves no job without a retry, ends the turn. */
  lemma LastRetry(cfg: Config, s: State, w: nat, now: Time, jitter: real, commits: bool) returns (s': State)
    requires Enabled(cfg, s, StoreRetry(w, now, jitter, commits))
    requires !commits || SpentJobs(s.workers[w].batch, cfg.retryMax) == []
    ensures var p := s.workers[w];
            && s' == Apply(cfg, s, StoreRetry(w, now, jitter, commits)) && s'.workers == s.workers[w := Idle]
            && s'.clock == s.clock && (commits ==> s'.ledger == s.ledger)
            && s'.jobs == Marked(s.jobs, RetryJobs(p.batch, cfg.retryMax),
                                 FirstRetry(cfg, p.batch, p.code, p.error, now, jitter), now, commits)
  {
    s' := Apply(cfg, s, StoreRetry(w, now, jitter, commits));
  }

  lemma TurnBoth(cfg: Config, s: State, w: nat, code: int, error: string, now: Time, jitter: real, dlqCommits: bool)
    requires w < |s.workers| && s.workers[w].Claimed? && now <= s.clock && 0.8 <= jitter <= 1.2
    requires ClassifyFailure(code, true) == RetryLater && RetryJobs(s.workers[w].batch, cfg.retryMax) != []
    requires SpentJobs(s.workers[w].batch, cfg.retryMax) != []
    ensures var batch := s.workers[w].batch;
            var m := FirstRetry(cfg, batch, code, error, now, jitter);
            var t := MarkTable(s.jobs, RetryJobs(batch, cfg.retryMax), m, now);
            EndsWith(cfg, s, [SendFail(w, code, error), StoreRetry(w, now, jitter, true), StoreDlq(w, now, dlqCommits)],
                     Marked(t, SpentJobs(batch, cfg.retryMax), MarkDlq(error, code), now, dlqCommits),
                     s.workers[w := Idle])
  {
    var a, b, c := SendFail(w, code, error), StoreRetry(w, now, jitter, true), StoreDlq(w, now, dlqCommits);
    var s1 := AfterFail(cfg, s, w, code, error);
    var s2 := HalfTurn(cfg, s1, w, now, jitter);
    var s3 := LastDlq(cfg, s2, w, now, dlqCommits);
    EndsTwo(cfg, s1, b, c, s2, s3);
    EndsThree(cfg, s, a, [b, c], s1, s3.jobs, s3.workers);
    assert [a] + [b, c] == [a, b, c];
    assert s3.workers == s1.workers[w := Idle];
  }

  /** After the retry mark the worker still holds the jobs without a retry left. */
  lemma HalfTurn(cfg: Config, s: State, w: nat, now: Time, jitter: real) returns (s': State)
    requires Enabled(cfg, s, StoreRetry(w, now, jitter, true)) && SpentJobs(s.workers[w].batch, cfg.retryMax) != []
    ensures var p := s.workers[w];
            && s' == Apply(cfg, s, StoreRetry(w, now, jitter, true)) && s'.clock == s.clock
            && s'.jobs == MarkTable(s.jobs, RetryJobs(p.batch, cfg.retryMax),
                                    FirstRetry(cfg, p.batch, p.code, p.error, now, jitter), now)
            && s'.workers == s.workers[w := HalfMarked(SpentJobs(p.batch, cfg.retryMax), p.at, p.code, p.error)]
  {
    s' := Apply(cfg, s, StoreRetry(w, now, jitter, true));
  }

  /** The table one undisturbed processBatch leaves. */
  ghost function TurnTable(cfg: Config, t: Table, batch: seq<Job>, answer: Answer, now: Time, jitter: real,
                           markCommits: bool, dlqCommits: bool): Table {
    match answer
    case Delivered(bulkId) => Marked(t, batch, MarkSent(bulkId), now, markCommits)
    case Failed(code, error) =>
      var retry, spent := RetryJobs(batch, cfg.retryMax), SpentJobs(batch, cfg.retryMax);
      if ClassifyFailure(code, true) == Permanent || retry == [] then
        Marked(t, batch, MarkDlq(error, code), now, dlqCommits)
      else
        var t' := Marked(t, retry, FirstRetry(cfg, batch, code, error, now, jitter), now, markCommits);
        if !markCommits || spent == [] then t' else Marked(t', spent, MarkDlq(error, code), now, dlqCommits)
  }

  /** One undisturbed processBatch is a run of the protocol that ends with the worker idle. */
  lemma TurnIsRun(cfg: Config, s: State, w: nat, answer: Answer, now: Time, jitter: real,
                  markCommits: bool, dlqCommits: bool)
    requires w < |s.workers| && s.workers[w].Claimed? && now <= s.clock && 0.8 <= jitter <= 1.2
    ensures var batch := s.workers[w].batch;
            EndsWith(cfg, s, TurnSteps(cfg, w, batch, answer, now, jitter, markCommits, dlqCommits),
                     TurnTable(cfg, s.jobs, batch, answer, now, jitter, markCommits, dlqCommits), s.workers[w := Idle])
  {
    var batch := s.workers[w].batch;
    match answer
    case Delivered(bulkId) => TurnSent(cfg, s, w, bulkId, now, markCommits);
    case Failed(code, error) =>
      if ClassifyFailure(code, true) == Permanent || RetryJobs(batch, cfg.retryMax) == [] {
        TurnDlq(cfg, s, w, code, error, now, dlqCommits);
      } else if !markCommits || SpentJobs(batch, cfg.retryMax) == [] {
        TurnRetry(cfg, s, w, code, error, now, jitter, markCommits);
      } else {
        TurnBoth(cfg, s, w, code, error, now, jitter, dlqCommits);
      }
  }

  /** Every mark of the run commits. */
  ghost predicate AllCommit(steps: seq<Step>) {
    forall step :: step in steps && (step.StoreSent? || step.StoreRetry? || step.StoreDlq?) ==> step.commits
  }

  lemma AllCommitTwo(a: Step, b: Step)
    requires a.SendOk? || a.SendFail?
    requires b.StoreSent? || b.StoreRetry? || b.StoreDlq?
    ensures AllCommit([a, b]) <==> b.commits
  {
    assert b in [a, b];
  }

  lemma AllCommitThree(a: Step, b: Step, c: Step)
    requires a.SendFail? && b.StoreRetry? && c.StoreDlq?
    ensures AllCommit([a, b, c]) <==> b.commits && c.commits
  {
    assert b in [a, b, c] && c in [a, b, c];
  }

  /** Which commits a turn depends on. */
  lemma TurnCommits(cfg: Config, w: nat, batch: seq<Job>, answer: Answer, now: Time, jitter: real,
                    markCommits: bool, dlqCommits: bool)
    ensures var retry, spent := RetryJobs(batch, cfg.retryMax), SpentJobs(batch, cfg.retryMax);
            var buried := answer.Failed? && (ClassifyFailure(answer.code, true) == Permanent || retry == []);
            AllCommit(TurnSteps(cfg, w, batch, answer, now, jitter, markCommits, dlqCommits)) <==> (
              if buried then dlqCommits else markCommits && (answer.Failed? && spent != [] ==> dlqCommits))
  {
    match answer
    case Delivered(bulkId) => AllCommitTwo(SendOk(w, bulkId), StoreSent(w, now, markCommits));
    case Failed(code, error) =>
      AllCommitTwo(SendFail(w, code, error), StoreDlq(w, now, dlqCommits));
      AllCommitTwo(SendFail(w, code, error), StoreRetry(w, now, jitter, markCommits));
      AllCommitThree(SendFail(w, code, error), StoreRetry(w, now, jitter, true), StoreDlq(w, now, dlqCommits));
  }

  // ----- The same turn on the columns

  ghost predicate HasRetry(cfg: Config, batch: seq<Job>, id: JobId) {
    exists job :: job in batch && job.id == id && job.row.attempts + 1 < cfg.retryMax
  }

  predicate NoneHasRetry(cfg: Config, batch: seq<Job>) {
    forall job :: job in batch ==> job.row.attempts + 1 >= cfg.retryMax
  }

  /** Job k is the first of the batch with a retry left. */
  predicate FirstWithRetry(cfg: Config, batch: seq<Job>, k: nat) {
    && k < |batch| && batch[k].row.attempts + 1 < cfg.retryMax
    && (forall i :: 0 <= i < k ==> batch[i].row.attempts + 1 >= cfg.retryMax)
  }

  /** What a turn that sees this refusal leaves of a processing row of its batch. */
  ghost predicate RefusedColumns(cfg: Config, batch: seq<Job>, code: int, error: string, now: Time, jitter: real,
                                 markCommits: bool, dlqCommits: bool, id: JobId, r: Row, r': Row) {
    var permanent := 400 <= code < 500 && code !in {408, 425, 429};
    if !permanent && HasRetry(cfg, batch, id) then
      if markCommits then
        exists k: nat :: FirstWithRetry(cfg, batch, k)
                    && RetryRow(r, r', now + JitteredBackoff(batch[k].row.attempts + 1, jitter), error, code, now)
      else r' == r
    else if dlqCommits && (permanent || markCommits || NoneHasRetry(cfg, batch)) then
      DlqRow(r, r', error, code, now)
    else r' == r
  }

  /** The rows a turn leaves: those of the batch still processing follow the answer, the others stay. */
  ghost predicate TurnColumns(cfg: Config, t: Table, t': Table, batch: seq<Job>, answer: Answer, now: Time,
                              jitter: real, markCommits: bool, dlqCommits: bool) {
    && t'.Keys == t.Keys
    && (forall id :: id in t && !(Carries(batch, id) && t[id].status == Processing) ==> t'[id] == t[id])
    && (forall id :: id in t && Carries(batch, id) && t[id].status == Processing ==>
          match answer
          case Delivered(bulkId) => if markCommits then SentRow(t[id], t'[id], bulkId, now) else t'[id] == t[id]
          case Failed(code, error) =>
            RefusedColumns(cfg, batch, code, error, now, jitter, markCommits, dlqCommits, id, t[id], t'[id]))
  }

  lemma {:induction false} FirstOfRetry(cfg: Config, batch: seq<Job>) returns (k: nat)
    requires RetryJobs(batch, cfg.retryMax) != []
    ensures FirstWithRetry(cfg, batch, k) && RetryJobs(batch, cfg.retryMax)[0] == batch[k]
  {
    var front, last := batch[..|batch| - 1], batch[|batch| - 1];
    if RetryJobs(front, cfg.retryMax) == [] {
      k := |batch| - 1;
      SplitMembers(front, cfg.retryMax);
      assert forall i :: 0 <= i < k ==> batch[i] in front;
    } else {
      k := FirstOfRetry(cfg, front);
    }
  }

  lemma RetryCarries(cfg: Config, batch: seq<Job>, id: JobId)
    ensures Carries(RetryJobs(batch, cfg.retryMax), id) <==> HasRetry(cfg, batch, id)
    ensures Carries(SpentJobs(batch, cfg.retryMax), id) ==> Carries(batch, id)
    ensures Carries(batch, id) ==> HasRetry(cfg, batch, id) || Carries(SpentJobs(batch, cfg.retryMax), id)
    ensures HasRetry(cfg, batch, id) ==> Carries(batch, id)
  {
    SplitMembers(batch, cfg.retryMax);
    if Carries(batch, id) {
      var job :| job in batch && job.id == id;
      assert job in RetryJobs(batch, cfg.retryMax) || job in SpentJobs(batch, cfg.retryMax);
    }
  }

  lemma AllSpentIff(cfg: Config, batch: seq<Job>)
    ensures RetryJobs(batch, cfg.retryMax) == [] <==> NoneHasRetry(cfg, batch)
  {
    SplitMembers(batch, cfg.retryMax);
    var retry := RetryJobs(batch, cfg.retryMax);
    if retry != [] {
      assert retry[0] in retry;
    }
  }

  lemma RefusedRow(cfg: Config, t: Table, batch: seq<Job>, code: int, error: string, now: Time, jitter: real,
                   markCommits: bool, dlqCommits: bool, id: JobId)
    requires id in t && Carries(batch, id) && t[id].status == Processing
    ensures var t' := TurnTable(cfg, t, batch, Failed(code, error), now, jitter, markCommits, dlqCommits);
            && id in t'
            && RefusedColumns(cfg, batch, code, error, now, jitter, markCommits, dlqCommits, id, t[id], t'[id])
  {
    RetryCarries(cfg, batch, id);
    AllSpentIff(cfg, batch);
    if RetryJobs(batch, cfg.retryMax) != [] {
      var k := FirstOfRetry(cfg, batch);
      var due := now + JitteredBackoff(batch[k].row.attempts + 1, jitter);
      assert RetryRow(t[id], MarkRow(t[id], MarkRetry(due, error, code), now), due, error, code, now);
    }
    assert DlqRow(t[id], MarkRow(t[id], MarkDlq(error, code), now), error, code, now);
  }

  lemma RefusedOthers(cfg: Config, t: Table, batch: seq<Job>, code: int, error: string, now: Time, jitter: real,
                      markCommits: bool, dlqCommits: bool, id: JobId)
    requires id in t && !(Carries(batch, id) && t[id].status == Processing)
    ensures var t' := TurnTable(cfg, t, batch, Failed(code, error), now, jitter, markCommits, dlqCommits);
            id in t' && t'[id] == t[id]
  {
    RetryCarries(cfg, batch, id);
  }

  /** Row by row, the table of a turn is what the answer calls for. */
  lemma TurnMeans(cfg: Config, t: Table, batch: seq<Job>, answer: Answer, now: Time, jitter: real,
                  markCommits: bool, dlqCommits: bool)
    ensures TurnColumns(cfg, t, TurnTable(cfg, t, batch, answer, now, jitter, markCommits, dlqCommits),
                        batch, answer, now, jitter, markCommits, dlqCommits)
  {
    if answer.Failed? {
      forall id | id in t && !(Carries(batch, id) && t[id].status == Processing)
        ensures TurnTable(cfg, t, batch, answer, now, jitter, markCommits, dlqCommits)[id] == t[id]
      {
        RefusedOthers(cfg, t, batch, answer.code, answer.error, now, jitter, markCommits, dlqCommits, id);
      }
      forall id | id in t && Carries(batch, id) && t[id].status == Processing
        ensures RefusedColumns(cfg, batch, answer.code, answer.error, now, jitter, markCommits, dlqCommits, id, t[id],
                               TurnTable(cfg, t, batch, answer, now, jitter, markCommits, dlqCommits)[id])
      {
        RefusedRow(cfg, t, batch, answer.code, answer.error, now, jitter, markCommits, dlqCommits, id);
      }
    }
  }

  /** processBatch, with the API's answer and the fate of its marks as parameters. */
  method ProcessBatch(cfg: Config, store: SQLiteStore, jobs: seq<Job>, answer: Answer, now: Time, jitter: real,
                      markCommits: bool, dlqCommits: bool)
    returns (ok: bool)
    modifies store`jobs
    ensures store.jobs == if jobs == [] then old(store.jobs)
                          else TurnTable(cfg, old(store.jobs), jobs, answer, now, jitter, markCommits, dlqCommits)
    ensures TurnColumns(cfg, old(store.jobs), store.jobs, jobs, answer, now, jitter, markCommits, dlqCommits)
    ensures ok <==> jobs == [] || AllCommit(TurnSteps(cfg, 0, jobs, answer, now, jitter, markCommits, dlqCommits))
  {
    if |jobs| == 0 {
      return true;
    }
    TurnCommits(cfg, 0, jobs, answer, now, jitter, markCommits, dlqCommits);
    TurnMeans(cfg, store.jobs, jobs, answer, now, jitter, markCommits, dlqCommits);
    match answer {
      case Delivered(bulkId) =>
        ok := store.MarkSent(jobs, bulkId, now, markCommits);
      case Failed(code, error) =>
        if ClassifyFailure(code, true) == RetryLater {
          ok := MarkRefused(cfg, store, jobs, code, error, now, jitter, markCommits, dlqCommits);
        } else {
          ok := store.MarkDLQ(jobs, error, code, now, dlqCommits);
        }
    }
  }

  /** The retry case of processBatch. */
  method MarkRefused(cfg: Config, store: SQLiteStore, jobs: seq<Job>, code: int, error: string, now: Time, jitter: real,
                     markCommits: bool, dlqCommits: bool)
    returns (ok: bool)
    requires jobs != [] && ClassifyFailure(code, true) == RetryLater
    modifies store`jobs
    ensures store.jobs
         == TurnTable(cfg, old(store.jobs), jobs, Failed(code, error), now, jitter, markCommits, dlqCommits)
    ensures ok <==> if RetryJobs(jobs, cfg.retryMax) == [] then dlqCommits
                    else markCommits && (SpentJobs(jobs, cfg.retryMax) != [] ==> dlqCommits)
  {
    var retryJobs, dlqJobs := PartitionRefused(jobs, cfg.retryMax);
    ok := true;
    if |retryJobs| > 0 {
      var next := now + JitteredBackoff(retryJobs[0].row.attempts + 1, jitter);
      ok := store.MarkRetry(retryJobs, next, error, code, now, markCommits);
      if !ok {
        return;
      }
    } else {
      AllSpent(jobs, cfg.retryMax);
    }
    assert store.jobs
        == if retryJobs == [] then old(store.jobs)
           else MarkTable(old(store.jobs), retryJobs, FirstRetry(cfg, jobs, code, error, now, jitter), now);
    if |dlqJobs| > 0 {
      ok := store.MarkDLQ(dlqJobs, error, code, now, dlqCommits);
    }
  }

  // ----- Repeated claims refine splitBatches

  lemma RestUntouched(t: Table, now: Time, order: seq<JobId>, k: nat, worker: string, id: JobId)
    requires Distinct(order) && k <= |order| && id in t
    ensures id in order[k..] ==> id !in order[..k] && ClaimTable(t, order[..k], worker, now)[id] == t[id]
    ensures id in order <==> id in order[..k] || id in order[k..]
  {
    assert order == order[..k] + order[k..];
    if id in order[k..] {
      var i :| 0 <= i < |order[k..]| && order[k..][i] == id;
      assert order[k + i] == id;
    }
  }

  lemma RestByAge(t: Table, t': Table, order: seq<JobId>, k: nat)
    requires Distinct(order) && ByAge(t, order) && k <= |order|
    requires forall id :: id in order[k..] ==> id in t && id in t' && t'[id] == t[id]
    ensures Distinct(order[k..]) && ByAge(t', order[k..])
  {
    var rest := order[k..];
    forall i, j | 0 <= i < j < |rest|
      ensures rest[i] != rest[j] && rest[i] in t' && rest[j] in t' && t'[rest[i]].createdAt <= t'[rest[j]].createdAt
    {
      assert rest[i] == order[k + i] && rest[j] == order[k + j];
      assert rest[i] in rest && rest[j] in rest;
    }
  }

  /** After a claim, the rest of the query's answer is what the next query may answer. */
  lemma NextAnswer(t: Table, now: Time, order: seq<JobId>, k: nat, worker: string)
    requires IsEligibleOrder(t, now, order) && k <= |order|
    ensures IsEligibleOrder(ClaimTable(t, order[..k], worker, now), now, order[k..])
    ensures JobsAt(ClaimTable(t, order[..k], worker, now), order[k..]) == JobsAt(t, order)[k..]
  {
    var t', rest := ClaimTable(t, order[..k], worker, now), order[k..];
    forall id | id in rest ensures id in t' && t'[id] == t[id] {
      assert id in order;
      RestUntouched(t, now, order, k, worker, id);
    }
    forall id | id in t' && Claimable(t'[id], now) ensures id in rest {
      RestUntouched(t, now, order, k, worker, id);
    }
    RestByAge(t, t', order, k);
  }

  /** The batches, as ids, that claims repeated until nothing is eligible take. */
  ghost function ClaimRounds(t: Table, now: Time, order: seq<JobId>, worker: string,
                             limit: int, maxCount: int, maxBytes: int): seq<seq<JobId>>
    requires limit >= 1 && IsEligibleOrder(t, now, order)
    decreases |order|
  {
    if order == [] then []
    else
      var ids := Selected(t, order, limit, maxCount, maxBytes);
      NextAnswer(t, now, order, |ids|, worker);
      var t' := ClaimTable(t, order[..|ids|], worker, now);
      [ids] + ClaimRounds(t', now, order[|ids|..], worker, limit, maxCount, maxBytes)
  }

  ghost function IdsOf(batches: seq<seq<Job>>): seq<seq<JobId>> {
    seq(|batches|, i requires 0 <= i < |batches| =>
      seq(|batches[i]|, k requires 0 <= k < |batches[i]| => batches[i][k].id))
  }

  function Lesser(a: int, b: nat): (m: nat)
    requires a >= 0
  {
    if a < b then a else b
  }

  /** The LIMIT of the query acts as one more count cap. */
  lemma PageCut(t: Table, order: seq<JobId>, limit: int, maxCount: nat, maxBytes: nat)
    requires limit >= 1 && maxCount >= 1 && forall id :: id in order ==> id in t
    ensures CutLen(JobsAt(t, Page(order, limit)), maxCount, maxBytes)
         == CutLen(JobsAt(t, order), Lesser(limit, maxCount), maxBytes)
  {
    var page := Page(order, limit);
    var js, all := JobsAt(t, page), JobsAt(t, order);
    var k := CutLen(js, maxCount, maxBytes);
    assert js[..k] == all[..k];
    if k < |js| {
      assert js[..k + 1] == all[..k + 1];
    }
    CutUnique(all, Lesser(limit, maxCount), maxBytes, k);
  }

  /** Claims repeated on a fixed queue take exactly the batches of splitBatches with the smaller count cap. */
  lemma {:induction false} ClaimsRefineSplit(t: Table, now: Time, order: seq<JobId>, worker: string,
                                             limit: int, maxCount: int, maxBytes: int)
    requires limit >= 1 && IsEligibleOrder(t, now, order)
    ensures ClaimRounds(t, now, order, worker, limit, maxCount, maxBytes)
         == IdsOf(Split(JobsAt(t, order), Lesser(limit, CountCap(maxCount)), ByteCap(maxBytes)))
    decreases |order|
  {
    if order != [] {
      var js, cap := JobsAt(t, order), Lesser(limit, CountCap(maxCount));
      var k := CutLen(js, cap, ByteCap(maxBytes));
      SelectedIsCut(t, order, limit, maxCount, maxBytes);
      NextAnswer(t, now, order, k, worker);
      ClaimsRefineSplit(ClaimTable(t, order[..k], worker, now), now, order[k..], worker, limit, maxCount, maxBytes);
      IdsCons(js[..k], Split(js[k..], cap, ByteCap(maxBytes)), order[..k]);
    }
  }

  /** One claim takes the first batch of the split. */
  lemma SelectedIsCut(t: Table, order: seq<JobId>, limit: int, maxCount: int, maxBytes: int)
    requires limit >= 1 && forall id :: id in order ==> id in t
    ensures Selected(t, order, limit, maxCount, maxBytes)
         == order[..CutLen(JobsAt(t, order), Lesser(limit, CountCap(maxCount)), ByteCap(maxBytes))]
  {
    PageCut(t, order, limit, CountCap(maxCount), ByteCap(maxBytes));
  }

  lemma IdsCons(head: seq<Job>, rest: seq<seq<Job>>, ids: seq<JobId>)
    requires |ids| == |head| && forall i :: 0 <= i < |ids| ==> ids[i] == head[i].id
    ensures IdsOf([head] + rest) == [ids] + IdsOf(rest)
  {
    var all := [head] + rest;
    assert seq(|head|, k requires 0 <= k < |head| => head[k].id) == ids;
    assert forall i :: 1 <= i < |all| ==> all[i] == rest[i - 1];
  }
}
