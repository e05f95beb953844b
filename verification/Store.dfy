/**
 The durable queue as an object: each method is one transaction on the jobs table.
 The database's choices are parameters: `commits` says whether the transaction goes through, `order` is the
 answer of the claim's SELECT, `ids` are freshly drawn ULIDs.
 */
module Store {
  import opened Prelude
  import opened JobTable
  import opened BatchCut

  class SQLiteStore {
    var jobs: Table
    const workerId: string

    /** OpenSQLite finds the rows an earlier process left in the file, with whatever leases they carry. */
    constructor (workerId: string, rows: Table)
      ensures jobs == rows && this.workerId == workerId
    {
      this.workerId := workerId;
      jobs := rows;
    }

    method EnqueueTx(envelopeFrom: string, messages: seq<Message>, ids: seq<JobId>, now: Time, commits: bool)
      returns (r: Result<seq<JobId>>)
      requires |ids| == |messages|
      modifies this`jobs
      ensures r.Ok? <==> messages == [] || (commits && Enqueueable(old(jobs), messages, ids))
      ensures r.Ok? && messages != [] ==>
                r.value == ids && Enqueueable(old(jobs), messages, ids)
                && jobs == EnqueueTable(old(jobs), envelopeFrom, messages, ids, now)
      ensures r.Ok? && messages != [] ==>
                && |jobs| == |old(jobs)| + |ids|
                && (forall id :: id in old(jobs) ==> id in jobs && jobs[id] == old(jobs)[id])
                && (forall i :: 0 <= i < |ids| ==>
                      && messages[i].recipients != [] && ids[i] in jobs
                      && QueuedRow(jobs[ids[i]], envelopeFrom, messages[i].recipients[0], messages[i].payload, now))
      ensures r.Err? || messages == [] ==> jobs == old(jobs)
    {
      if |messages| == 0 {
        return Ok([]);
      }
      var work: Table := jobs;
      InsertNone(jobs, envelopeFrom, messages, ids, now);
      for i := 0 to |messages|
        invariant jobs == old(jobs) && InsertedUpTo(jobs, envelopeFrom, messages, ids, now, i, work)
      {
        if |messages[i].recipients| == 0 {
          return Err("message must have one recipient");
        }
        InsertTaken(jobs, envelopeFrom, messages, ids, now, i, work);
        if ids[i] in work {
          return Err("insert job");
        }
        InsertNext(jobs, envelopeFrom, messages, ids, now, i, work);
        work := work[ids[i] := NewRow(envelopeFrom, messages[i], now)];
      }
      InsertAll(jobs, envelopeFrom, messages, ids, now, work);
      if !commits {
        return Err("commit enqueue tx");
      }
      EnqueuedRows(jobs, envelopeFrom, messages, ids, now);
      jobs := work;
      r := Ok(ids);
    }

    method ClaimDispatchBatch(now: Time, limit: int, maxCount: int, maxBytes: int,
                              order: seq<JobId>, reread: seq<JobId>, commits: bool)
      returns (r: Result<seq<Job>>)
      requires IsEligibleOrder(jobs, now, order)
      requires var ids := Selected(jobs, order, limit, maxCount, maxBytes);
               IsReread(ClaimTable(jobs, ids, workerId, now), ids, workerId, reread)
      modifies this`jobs
      ensures r.Ok? ==>
                var ids := Selected(old(jobs), order, limit, maxCount, maxBytes);
                && jobs == ClaimTable(old(jobs), ids, workerId, now)
                && r.value == JobsAt(jobs, reread)
      ensures r.Ok? ==>
                && StopsRight(old(jobs), order, |r.value|, limit, maxCount, maxBytes)
                && LeasedBatch(old(jobs), jobs, order[..|r.value|], r.value, workerId, now)
      ensures r.Err? ==> jobs == old(jobs)
      ensures commits || limit <= 0 ==> r.Ok?
    {
      if limit <= 0 {
        SelectedStops(jobs, order, limit, maxCount, maxBytes);
        ClaimNothing(jobs, workerId, now);
        RereadAll(jobs, [], workerId, now, reread);
        ClaimColumns(jobs, [], reread, workerId, now);
        return Ok([]);
      }
      var ids := SelectBatch(now, limit, maxCount, maxBytes, order);
      if !commits {
        return Err("commit claim tx");
      }
      assert forall id :: id in ids ==> id in order;
      RereadAll(jobs, ids, workerId, now, reread);
      ClaimColumns(jobs, ids, reread, workerId, now);
      jobs := ClaimTable(jobs, ids, workerId, now);
      var out := ReadClaimed(ids, reread);
      r := Ok(out);
    }

    /** The claim's second SELECT, row by row as the database lists them: every row among ids this process holds. */
    method ReadClaimed(ghost ids: seq<JobId>, reread: seq<JobId>) returns (out: seq<Job>)
      requires IsReread(jobs, ids, workerId, reread)
      ensures out == JobsAt(jobs, reread)
      ensures forall id :: Carries(out, id) <==> id in ids && id in jobs && Leased(jobs[id], workerId)
      ensures forall job :: job in out ==> Leased(job.row, workerId)
    {
      out := [];
      for i := 0 to |reread|
        invariant out == JobsAt(jobs, reread)[..i]
      {
        assert reread[i] in reread;
        out := out + [Job(reread[i], jobs[reread[i]])];
      }
      forall id ensures Carries(out, id) <==> id in reread {
        JobsAtCarries(jobs, reread, id);
      }
    }

    /** The row loop of a claim: stop before the first job that would break a cap. */
    method SelectBatch(now: Time, limit: int, maxCount: int, maxBytes: int, order: seq<JobId>) returns (ids: seq<JobId>)
      requires IsEligibleOrder(jobs, now, order) && limit > 0
      ensures ids == Selected(jobs, order, limit, maxCount, maxBytes)
      ensures ids == order[..|ids|] && StopsRight(jobs, order, |ids|, limit, maxCount, maxBytes)
    {
      var countCap, byteCap := CountCap(maxCount), ByteCap(maxBytes);
      var rows := Page(order, limit);
      ghost var js := JobsAt(jobs, rows);
      ids := [];
      var batchBytes := 0;
      var i := 0;
      while i < |rows|
        invariant i <= |rows| && ids == rows[..i]
        invariant batchBytes == Bytes(js[..i]) && Fits(js[..i], countCap, byteCap)
      {
        assert rows[i] in order;
        var nextJobBytes := |jobs[rows[i]].payload| + JOB_OVERHEAD;
        BytesAppend(js[..i], js[i]);
        assert js[..i + 1] == js[..i] + [js[i]];
        if |ids| > 0 && (|ids| >= countCap || batchBytes + nextJobBytes > byteCap) {
          break;
        }
        ids := ids + [rows[i]];
        batchBytes := batchBytes + nextJobBytes;
        i := i + 1;
      }
      CutUnique(js, countCap, byteCap, i);
      SelectedStops(jobs, order, limit, maxCount, maxBytes);
    }

    /** The statement loop shared by the three marks. */
    method ExecMark(batch: seq<Job>, m: Mark, now: Time, commits: bool) returns (ok: bool)
      modifies this`jobs
      ensures ok <==> commits || batch == []
      ensures jobs == if ok then MarkTable(old(jobs), batch, m, now) else old(jobs)
    {
      if |batch| == 0 {
        MarkNothing(jobs, m, now);
        return true;
      }
      var work := jobs;
      MarkNothing(jobs, m, now);
      assert batch[..0] == [];
      for i := 0 to |batch|
        invariant jobs == old(jobs) && work == MarkTable(jobs, batch[..i], m, now)
      {
        var id := batch[i].id;
        if id in work {
          work := work[id := MarkRow(work[id], m, now)];
        }
        assert batch[..i + 1] == batch[..i] + [batch[i]];
        MarkOneMore(jobs, batch[..i], batch[i], m, now);
      }
      assert batch[..|batch|] == batch;
      if commits {
        jobs := work;
      }
      ok := commits;
    }

    method MarkSent(batch: seq<Job>, bulkEmailId: string, now: Time, commits: bool) returns (ok: bool)
      modifies this`jobs
      ensures ok <==> commits || batch == []
      ensures jobs == if ok then MarkTable(old(jobs), batch, Mark.MarkSent(bulkEmailId), now) else old(jobs)
      ensures jobs.Keys == old(jobs).Keys
      ensures ok ==> forall id :: id in jobs && Carries(batch, id) && old(jobs)[id].status == Processing ==>
                SentRow(old(jobs)[id], jobs[id], bulkEmailId, now)
      ensures forall id :: id in jobs && !(ok && Carries(batch, id) && old(jobs)[id].status == Processing) ==>
                jobs[id] == old(jobs)[id]
    {
      ok := ExecMark(batch, Mark.MarkSent(bulkEmailId), now, commits);
    }

    method MarkRetry(batch: seq<Job>, nextAttemptAt: Time, errMsg: string, httpStatus: int, now: Time, commits: bool)
      returns (ok: bool)
      modifies this`jobs
      ensures ok <==> commits || batch == []
      ensures ok ==> jobs == MarkTable(old(jobs), batch, Mark.MarkRetry(nextAttemptAt, errMsg, httpStatus), now)
      ensures !ok ==> jobs == old(jobs)
      ensures jobs.Keys == old(jobs).Keys
      ensures ok ==> forall id :: id in jobs && Carries(batch, id) && old(jobs)[id].status == Processing ==>
                RetryRow(old(jobs)[id], jobs[id], nextAttemptAt, errMsg, httpStatus, now)
      ensures forall id :: id in jobs && !(ok && Carries(batch, id) && old(jobs)[id].status == Processing) ==>
                jobs[id] == old(jobs)[id]
    {
      ok := ExecMark(batch, Mark.MarkRetry(nextAttemptAt, errMsg, httpStatus), now, commits);
    }

    method MarkDLQ(batch: seq<Job>, errMsg: string, httpStatus: int, now: Time, commits: bool) returns (ok: bool)
      modifies this`jobs
      ensures ok <==> commits || batch == []
      ensures jobs == if ok then MarkTable(old(jobs), batch, Mark.MarkDlq(errMsg, httpStatus), now) else old(jobs)
      ensures jobs.Keys == old(jobs).Keys
      ensures ok ==> forall id :: id in jobs && Carries(batch, id) && old(jobs)[id].status == Processing ==>
                DlqRow(old(jobs)[id], jobs[id], errMsg, httpStatus, now)
      ensures forall id :: id in jobs && !(ok && Carries(batch, id) && old(jobs)[id].status == Processing) ==>
                jobs[id] == old(jobs)[id]
    {
      ok := ExecMark(batch, Mark.MarkDlq(errMsg, httpStatus), now, commits);
    }

    /** Every lease older than the timeout is put back on the queue, and no other row changes. */
    method RequeueStaleProcessing(now: Time, leaseTimeout: Time) returns (affected: nat)
      modifies this`jobs
      ensures jobs.Keys == old(jobs).Keys && affected == |Changed(old(jobs), jobs)|
      ensures forall id :: id in jobs ==>
                if OutlivedLease(old(jobs)[id], now, leaseTimeout)
                then PutBack(old(jobs)[id], jobs[id], now)
                  && jobs[id].lastError == old(jobs)[id].lastError
                  && jobs[id].lastHttpStatus == old(jobs)[id].lastHttpStatus
                else jobs[id] == old(jobs)[id]
      ensures forall id :: id in jobs ==> !OutlivedLease(jobs[id], now, leaseTimeout)
      ensures |WithStatus(jobs, Processing)| + affected == |WithStatus(old(jobs), Processing)|
      ensures |WithStatus(jobs, Retry)| == |WithStatus(old(jobs), Retry)| + affected
      ensures forall st :: st in {Queued, Sent, Dlq} ==> WithStatus(jobs, st) == WithStatus(old(jobs), st)
      ensures jobs == RequeueTable(old(jobs), now, leaseTimeout)
    {
      var stale := set id | id in jobs && Stale(jobs[id], now, leaseTimeout);
      jobs := RequeueTable(jobs, now, leaseTimeout);
      MovedRows(old(jobs), jobs, stale, Processing);
      affected := |stale|;
    }

    /** The listed dead letters are put back on the queue; other ids in the list do nothing. */
    method RequeueDLQIDs(ids: seq<JobId>, now: Time) returns (affected: nat)
      modifies this`jobs
      ensures jobs.Keys == old(jobs).Keys && affected == |Changed(old(jobs), jobs)|
      ensures forall id :: id in jobs ==>
                if old(jobs)[id].status == Dlq && id in ids
                then PutBack(old(jobs)[id], jobs[id], now)
                  && jobs[id].lastError == None && jobs[id].lastHttpStatus == None
                else jobs[id] == old(jobs)[id]
      ensures WithStatus(jobs, Dlq) == WithStatus(old(jobs), Dlq) - Elems(ids)
      ensures |WithStatus(jobs, Dlq)| + affected == |WithStatus(old(jobs), Dlq)|
      ensures |WithStatus(jobs, Retry)| == |WithStatus(old(jobs), Retry)| + affected
      ensures forall st :: st in {Queued, Sent, Processing} ==> WithStatus(jobs, st) == WithStatus(old(jobs), st)
      ensures jobs == ReplayTable(old(jobs), ids, now)
    {
      var dead := set id | id in jobs && jobs[id].status == Dlq && id in ids;
      jobs := ReplayTable(jobs, ids, now);
      MovedRows(old(jobs), jobs, dead, Dlq);
      affected := |dead|;
    }

    /** Every row waiting for retry is due at once; no row changes its status. */
    method RetryNow(now: Time) returns (affected: nat)
      modifies this`jobs
      ensures jobs.Keys == old(jobs).Keys && affected == |WithStatus(jobs, Retry)|
      ensures forall id :: id in jobs ==>
                jobs[id] == if old(jobs)[id].status == Retry then old(jobs)[id].(nextAttemptAt := now, updatedAt := now)
                            else old(jobs)[id]
      ensures forall st :: WithStatus(jobs, st) == WithStatus(old(jobs), st)
      ensures jobs == RetryNowTable(old(jobs), now)
    {
      var waiting := set id | id in jobs && jobs[id].status == Retry;
      jobs := RetryNowTable(jobs, now);
      assert waiting == WithStatus(jobs, Retry);
      affected := |waiting|;
    }

    /** One count per status, zero for a status no row has; together they count every row once. */
    method CountByStatus() returns (counts: map<Status, nat>)
      ensures forall st :: st in counts && counts[st] == |WithStatus(jobs, st)|
      ensures counts[Queued] + counts[Processing] + counts[Retry] + counts[Sent] + counts[Dlq] == |jobs|
    {
      counts := map[Queued := 0, Processing := 0, Retry := 0, Sent := 0, Dlq := 0];
      var todo := jobs.Keys;
      CountNone(jobs, counts);
      while todo != {}
        invariant todo <= jobs.Keys && CountsBut(jobs, counts, todo)
        decreases todo
      {
        var id :| id in todo;
        CountOneMore(jobs, counts, todo, id);
        var st := jobs[id].status;
        counts := counts[st := counts[st] + 1];
        todo := todo - {id};
      }
      CountAll(jobs, counts);
    }
  }

  /** A row just enqueued. */
  predicate QueuedRow(r: Row, from: string, to: string, payload: string, now: Time) {
    && r.status == Queued && r.payload == payload
    && r.envelopeFrom == ToLower(TrimSpace(from)) && r.recipient == ToLower(TrimSpace(to))
    && r.attempts == 0 && r.nextAttemptAt == now && r.createdAt == now && r.updatedAt == now
    && r.lastError == None && r.lastHttpStatus == None && r.bulkEmailId == None
    && r.workerId == None && r.startedAt == None
  }

  /** One more attempt, no lease any more, and the letter as it was. */
  predicate Released(r: Row, r': Row, now: Time) {
    && r'.attempts == r.attempts + 1 && r'.workerId == None && r'.startedAt == None && r'.updatedAt == now
    && SameLetter(r, r')
  }

  /** Sent under the bulk id, with no error on file. */
  predicate SentRow(r: Row, r': Row, bulkId: string, now: Time) {
    && Released(r, r', now) && r'.status == Sent && r'.bulkEmailId == Some(bulkId)
    && r'.lastError == None && r'.lastHttpStatus == None && r'.nextAttemptAt == r.nextAttemptAt
  }

  /** Waiting for retry until then, with the failure on file. */
  predicate RetryRow(r: Row, r': Row, nextAt: Time, error: string, http: int, now: Time) {
    && Released(r, r', now) && r'.status == Retry && r'.nextAttemptAt == nextAt
    && r'.lastError == Some(error) && r'.lastHttpStatus == Some(http) && r'.bulkEmailId == r.bulkEmailId
  }

  /** A dead letter with the failure on file. */
  predicate DlqRow(r: Row, r': Row, error: string, http: int, now: Time) {
    && Released(r, r', now) && r'.status == Dlq && r'.nextAttemptAt == r.nextAttemptAt
    && r'.lastError == Some(error) && r'.lastHttpStatus == Some(http) && r'.bulkEmailId == r.bulkEmailId
  }

  /** The row is processing and its lease began more than the timeout ago. */
  predicate OutlivedLease(r: Row, now: Time, timeout: Time) {
    r.status == Processing && r.startedAt.Some? && now - r.startedAt.value > timeout
  }

  /** Rows of one status that move to retry: the counts of both statuses shift by their number. */
  lemma MovedRows(t: Table, t': Table, moved: set<JobId>, from: Status)
    requires t'.Keys == t.Keys && from != Retry && moved <= WithStatus(t, from)
    requires forall id :: id in t ==> if id in moved then t'[id].status == Retry else t'[id] == t[id]
    ensures Changed(t, t') == moved
    ensures WithStatus(t', from) == WithStatus(t, from) - moved
    ensures |WithStatus(t', from)| + |moved| == |WithStatus(t, from)|
    ensures |WithStatus(t', Retry)| == |WithStatus(t, Retry)| + |moved|
    ensures forall st :: st != from && st != Retry ==> WithStatus(t', st) == WithStatus(t, st)
  {
    assert WithStatus(t', from) == WithStatus(t, from) - moved;
    assert WithStatus(t', Retry) == WithStatus(t, Retry) + moved;
    assert WithStatus(t, Retry) !! moved;
    assert |WithStatus(t, from) - moved| == |WithStatus(t, from)| - |moved|;
  }

  /** The row was waiting and due, and is now leased to the worker from this moment; nothing else about it changed. */
  predicate JustClaimed(r: Row, r': Row, worker: string, now: Time) {
    && r.status in {Queued, Retry} && r.nextAttemptAt <= now
    && r' == r.(status := Processing, workerId := Some(worker), startedAt := Some(now), updatedAt := now)
  }

  /** Exactly these rows were claimed, and the batch is these rows as they now are, each once. */
  ghost predicate LeasedBatch(t: Table, t': Table, ids: seq<JobId>, js: seq<Job>, worker: string, now: Time) {
    && t'.Keys == t.Keys && |js| == |ids|
    && (forall id :: id in t ==> if id in ids then JustClaimed(t[id], t'[id], worker, now) else t'[id] == t[id])
    && (forall id :: Carries(js, id) <==> id in ids)
    && (forall job :: job in js ==> job.id in t' && job.row == t'[job.id])
  }

  lemma ClaimColumns(t: Table, ids: seq<JobId>, reread: seq<JobId>, worker: string, now: Time)
    requires forall id :: id in ids ==> id in t && Claimable(t[id], now)
    requires |reread| == |ids| && forall id :: id in reread <==> id in ids
    ensures var t' := ClaimTable(t, ids, worker, now); LeasedBatch(t, t', ids, JobsAt(t', reread), worker, now)
  {
    var t' := ClaimTable(t, ids, worker, now);
    forall id ensures Carries(JobsAt(t', reread), id) <==> id in reread {
      JobsAtCarries(t', reread, id);
    }
    if reread != [] {
      JobsAtCarries(t', reread, reread[0]);
    }
  }

  // ----- Facts the loops rest on

  /** The table after the first i INSERTs, all of which went through. */
  ghost predicate InsertedUpTo(t: Table, envelopeFrom: string, msgs: seq<Message>, ids: seq<JobId>, now: Time,
                               i: nat, work: Table)
    requires i <= |msgs| == |ids|
  {
    && (forall k :: 0 <= k < i ==> msgs[..i][k].recipients != [])
    && NewIds(t, ids[..i])
    && work == Inserted(t, NewRows(envelopeFrom, msgs[..i], now), ids[..i])
  }

  lemma InsertNone(t: Table, envelopeFrom: string, msgs: seq<Message>, ids: seq<JobId>, now: Time)
    requires |msgs| == |ids|
    ensures InsertedUpTo(t, envelopeFrom, msgs, ids, now, 0, t)
  {}

  /** An INSERT under an id already there fails, and then the ids are not all new. */
  lemma InsertTaken(t: Table, envelopeFrom: string, msgs: seq<Message>, ids: seq<JobId>, now: Time, i: nat, work: Table)
    requires i < |msgs| == |ids| && InsertedUpTo(t, envelopeFrom, msgs, ids, now, i, work)
    ensures ids[i] in work <==> ids[i] in t || ids[i] in ids[..i]
    ensures ids[i] in work ==> !NewIds(t, ids)
  {
    InsertedKeys(t, NewRows(envelopeFrom, msgs[..i], now), ids[..i]);
  }

  /** One more INSERT that goes through. */
  lemma InsertNext(t: Table, envelopeFrom: string, msgs: seq<Message>, ids: seq<JobId>, now: Time, i: nat, work: Table)
    requires i < |msgs| == |ids| && InsertedUpTo(t, envelopeFrom, msgs, ids, now, i, work)
    requires msgs[i].recipients != [] && ids[i] !in t && ids[i] !in ids[..i]
    ensures InsertedUpTo(t, envelopeFrom, msgs, ids, now, i + 1, work[ids[i] := NewRow(envelopeFrom, msgs[i], now)])
  {
    var rows, row, more := NewRows(envelopeFrom, msgs[..i], now), NewRow(envelopeFrom, msgs[i], now), msgs[..i + 1];
    assert forall k :: 0 <= k < i ==> more[k] == msgs[..i][k];
    assert NewRows(envelopeFrom, more, now) == rows + [row];
    InsertedMore(t, rows, ids, i, row);
  }

  lemma InsertedMore(t: Table, rows: seq<Row>, ids: seq<JobId>, i: nat, row: Row)
    requires i < |ids| && |rows| == i && NewIds(t, ids[..i]) && ids[i] !in t && ids[i] !in ids[..i]
    ensures NewIds(t, ids[..i + 1])
    ensures Inserted(t, rows + [row], ids[..i + 1]) == Inserted(t, rows, ids[..i])[ids[i] := row]
  {
    var more := ids[..i + 1];
    assert more[..i] == ids[..i] && (rows + [row])[..i] == rows;
    forall a, b | 0 <= a < b < |more| ensures more[a] != more[b] {
      assert more[a] == ids[..i][a];
    }
  }

  lemma InsertAll(t: Table, envelopeFrom: string, msgs: seq<Message>, ids: seq<JobId>, now: Time, work: Table)
    requires |msgs| == |ids| && InsertedUpTo(t, envelopeFrom, msgs, ids, now, |msgs|, work)
    ensures Enqueueable(t, msgs, ids) && work == EnqueueTable(t, envelopeFrom, msgs, ids, now)
  {
    assert msgs[..|msgs|] == msgs && ids[..|ids|] == ids;
  }

  /** Every status is counted but for the rows still to do. */
  ghost predicate CountsBut(t: Table, counts: map<Status, nat>, todo: set<JobId>) {
    forall st :: st in counts && counts[st] + |WithStatus(t, st) * todo| == |WithStatus(t, st)|
  }

  lemma CountNone(t: Table, counts: map<Status, nat>)
    requires counts == map[Queued := 0, Processing := 0, Retry := 0, Sent := 0, Dlq := 0]
    ensures CountsBut(t, counts, t.Keys)
  {
    forall st: Status ensures st in counts && counts[st] + |WithStatus(t, st) * t.Keys| == |WithStatus(t, st)| {
      assert WithStatus(t, st) * t.Keys == WithStatus(t, st);
      assert st.Queued? || st.Processing? || st.Retry? || st.Sent? || st.Dlq?;
    }
  }

  lemma CountRow(t: Table, st: Status, todo: set<JobId>, id: JobId)
    requires id in t && id in todo
    ensures |WithStatus(t, st) * (todo - {id})| + Bit(st == t[id].status) == |WithStatus(t, st) * todo|
  {
    var w := WithStatus(t, st) * todo;
    if st == t[id].status {
      assert WithStatus(t, st) * (todo - {id}) == w - {id};
    } else {
      assert WithStatus(t, st) * (todo - {id}) == w;
    }
  }

  lemma CountOneMore(t: Table, counts: map<Status, nat>, todo: set<JobId>, id: JobId)
    requires CountsBut(t, counts, todo) && id in t && id in todo
    ensures t[id].status in counts
    ensures CountsBut(t, counts[t[id].status := counts[t[id].status] + 1], todo - {id})
  {
    forall st: Status
      ensures |WithStatus(t, st) * (todo - {id})| + Bit(st == t[id].status) == |WithStatus(t, st) * todo|
    {
      CountRow(t, st, todo, id);
    }
  }

  lemma CountAll(t: Table, counts: map<Status, nat>)
    requires CountsBut(t, counts, {})
    ensures forall st :: st in counts && counts[st] == |WithStatus(t, st)|
    ensures counts[Queued] + counts[Processing] + counts[Retry] + counts[Sent] + counts[Dlq] == |t|
  {
    forall st: Status ensures st in counts && counts[st] == |WithStatus(t, st)| {
      assert WithStatus(t, st) * {} == {};
    }
    CountsPartition(t);
  }

  lemma ClaimNothing(t: Table, worker: string, now: Time)
    ensures ClaimTable(t, [], worker, now) == t
  {}

  lemma MarkNothing(t: Table, m: Mark, now: Time)
    ensures MarkTable(t, [], m, now) == t
  {}

  /** Marking is idempotent per row: a row already marked is no longer processing. */
  lemma MarkOneMore(t: Table, batch: seq<Job>, job: Job, m: Mark, now: Time)
    ensures var u := MarkTable(t, batch, m, now);
            MarkTable(t, batch + [job], m, now) == if job.id in u then u[job.id := MarkRow(u[job.id], m, now)] else u
  {
    var u := MarkTable(t, batch, m, now);
    var v := MarkTable(t, batch + [job], m, now);
    forall id | id in t ensures v[id] == if id == job.id then MarkRow(u[id], m, now) else u[id] {
      assert Carries(batch + [job], id) <==> Carries(batch, id) || id == job.id by {
        if Carries(batch, id) {
          var x :| x in batch && x.id == id;
          assert x in batch + [job];
        }
        if id == job.id {
          assert job in batch + [job];
        }
      }
    }
  }
}
