/**
 The jobs table of the durable queue and the effect of each SQL transaction on it.
 A transaction is one atomic function from table to table; times are integers (nanoseconds).
 */
module JobTable {
  import opened Prelude

  type JobId = nat
  type Time = int

  datatype Status = Queued | Processing | Retry | Sent | Dlq {
    predicate Waiting() { Queued? || Retry? }
    predicate Finished() { Sent? || Dlq? }
  }

  datatype Row = Row(
    status: Status,
    payload: string,
    envelopeFrom: string,
    recipient: string,
    attempts: nat,
    nextAttemptAt: Time,
    lastError: Option<string>,
    lastHttpStatus: Option<int>,
    bulkEmailId: Option<string>,
    workerId: Option<string>,
    startedAt: Option<Time>,
    createdAt: Time,
    updatedAt: Time)

  type Table = map<JobId, Row>

  /** A row as a worker read it when it claimed it. */
  datatype Job = Job(id: JobId, row: Row)

  /** What the SMTP side hands over: recipient addresses and the marshalled message. */
  datatype Message = Message(recipients: seq<string>, payload: string)

  // ----- Enqueue

  predicate IsSpace(c: char) {
    c == ' ' || c == '\t' || c == '\n' || c == '\r' || c == '\U{000B}' || c == '\U{000C}'
  }

  function TrimLeft(s: string): string {
    if s != "" && IsSpace(s[0]) then TrimLeft(s[1..]) else s
  }

  function TrimRight(s: string): string {
    if s != "" && IsSpace(s[|s| - 1]) then TrimRight(s[..|s| - 1]) else s
  }

  function TrimSpace(s: string): string {
    TrimRight(TrimLeft(s))
  }

  predicate Blank(s: string) {
    forall c :: c in s ==> IsSpace(c)
  }

  const SPACES := " \t\n\r\U{000B}\U{000C}"

  /** Trimming cuts exactly the ASCII white space at both ends. */
  lemma TrimSpaceCuts(s: string) returns (before: string, after: string)
    ensures s == before + TrimSpace(s) + after && forall c :: c in before + after ==> c in SPACES
    ensures TrimSpace(s) != "" ==> TrimSpace(s)[0] !in SPACES && TrimSpace(s)[|TrimSpace(s)| - 1] !in SPACES
  {
    before := TrimLeftCuts(s);
    after := TrimRightCuts(TrimLeft(s));
    assert before + (TrimSpace(s) + after) == before + TrimSpace(s) + after;
  }

  lemma {:induction false} TrimLeftCuts(s: string) returns (before: string)
    ensures s == before + TrimLeft(s) && Blank(before)
    ensures TrimLeft(s) != "" ==> !IsSpace(TrimLeft(s)[0])
  {
    before := "";
    if s != "" && IsSpace(s[0]) {
      var rest := TrimLeftCuts(s[1..]);
      before := [s[0]] + rest;
    }
  }

  lemma {:induction false} TrimRightCuts(s: string) returns (after: string)
    ensures s == TrimRight(s) + after && Blank(after)
    ensures TrimRight(s) != "" ==> TrimRight(s)[0] == s[0] && !IsSpace(TrimRight(s)[|TrimRight(s)| - 1])
  {
    after := "";
    if s != "" && IsSpace(s[|s| - 1]) {
      var rest := TrimRightCuts(s[..|s| - 1]);
      after := rest + [s[|s| - 1]];
    }
  }

  function ToLower(s: string): string {
    seq(|s|, i requires 0 <= i < |s| =>
      if 'A' <= s[i] <= 'Z' then ((s[i] as int) + 32) as char else s[i])
  }

  const UPPER := "ABCDEFGHIJKLMNOPQRSTUVWXYZ"
  const LOWER := "abcdefghijklmnopqrstuvwxyz"

  /** Each capital becomes the small letter at its place in the alphabet; everything else stays. */
  lemma LowerCase(s: string)
    ensures |ToLower(s)| == |s|
    ensures forall i, k :: 0 <= i < |s| && 0 <= k < 26 && s[i] == UPPER[k] ==> ToLower(s)[i] == LOWER[k]
    ensures forall i :: 0 <= i < |s| && s[i] !in UPPER ==> ToLower(s)[i] == s[i]
  {
    assert forall k :: 0 <= k < 26 ==> UPPER[k] == (65 + k) as char && LOWER[k] == (97 + k) as char;
    forall c: char | 'A' <= c <= 'Z' ensures c in UPPER {
      assert UPPER[c as int - 65] == c;
    }
  }

  function NewRow(envelopeFrom: string, msg: Message, now: Time): Row
    requires msg.recipients != []
  {
    Row(Queued, msg.payload, ToLower(TrimSpace(envelopeFrom)), ToLower(TrimSpace(msg.recipients[0])),
        0, now, None, None, None, None, None, now, now)
  }

  /** Every message has a recipient and every id is new: the inserts cannot fail. */
  ghost predicate Enqueueable(t: Table, msgs: seq<Message>, ids: seq<JobId>) {
    && |ids| == |msgs|
    && NewIds(t, ids)
    && (forall i :: 0 <= i < |msgs| ==> msgs[i].recipients != [])
  }

  ghost predicate NewIds(t: Table, ids: seq<JobId>) {
    Distinct(ids) && forall i :: 0 <= i < |ids| ==> ids[i] !in t
  }

  ghost function NewRows(envelopeFrom: string, msgs: seq<Message>, now: Time): seq<Row>
    requires forall i :: 0 <= i < |msgs| ==> msgs[i].recipients != []
  {
    seq(|msgs|, i requires 0 <= i < |msgs| => NewRow(envelopeFrom, msgs[i], now))
  }

  /** The table after inserting the rows under the ids, one by one. */
  ghost function Inserted(t: Table, rows: seq<Row>, ids: seq<JobId>): Table
    requires |rows| == |ids|
  {
    if ids == [] then t
    else
      var n := |ids| - 1;
      Inserted(t, rows[..n], ids[..n])[ids[n] := rows[n]]
  }

  ghost function EnqueueTable(t: Table, envelopeFrom: string, msgs: seq<Message>, ids: seq<JobId>, now: Time): Table
    requires Enqueueable(t, msgs, ids)
  {
    Inserted(t, NewRows(envelopeFrom, msgs, now), ids)
  }

  ghost function Elems(ids: seq<JobId>): set<JobId> {
    set id | id in ids
  }

  lemma ElemsAppend(ids: seq<JobId>, id: JobId)
    ensures Elems(ids + [id]) == Elems(ids) + {id}
  {}

  lemma {:induction false} InsertedKeys(t: Table, rows: seq<Row>, ids: seq<JobId>)
    requires |rows| == |ids|
    ensures Inserted(t, rows, ids).Keys == t.Keys + Elems(ids)
  {
    if ids != [] {
      var n := |ids| - 1;
      InsertedKeys(t, rows[..n], ids[..n]);
      ElemsAppend(ids[..n], ids[n]);
      assert ids == ids[..n] + [ids[n]];
    }
  }

  lemma {:induction false} ElemsSize(ids: seq<JobId>)
    requires Distinct(ids)
    ensures |Elems(ids)| == |ids|
  {
    if ids != [] {
      var n := |ids| - 1;
      ElemsSize(ids[..n]);
      ElemsAppend(ids[..n], ids[n]);
      assert ids == ids[..n] + [ids[n]] && ids[n] !in ids[..n];
    }
  }

  lemma {:induction false} InsertedRows(t: Table, rows: seq<Row>, ids: seq<JobId>)
    requires |rows| == |ids| && NewIds(t, ids)
    ensures var u := Inserted(t, rows, ids);
            && (forall id :: id in t ==> id in u && u[id] == t[id])
            && (forall i :: 0 <= i < |ids| ==> ids[i] in u && u[ids[i]] == rows[i])
  {
    if ids != [] {
      var n := |ids| - 1;
      InsertedRows(t, rows[..n], ids[..n]);
      assert forall i :: 0 <= i < n ==> ids[..n][i] == ids[i] && ids[i] != ids[n];
    }
  }

  /** An enqueue adds exactly the new rows, one per message, and leaves the rest of the table alone. */
  lemma EnqueuedRows(t: Table, envelopeFrom: string, msgs: seq<Message>, ids: seq<JobId>, now: Time)
    requires Enqueueable(t, msgs, ids)
    ensures var u := EnqueueTable(t, envelopeFrom, msgs, ids, now);
            && u.Keys == t.Keys + Elems(ids)
            && |u| == |t| + |ids|
            && (forall id :: id in t ==> u[id] == t[id])
            && (forall i :: 0 <= i < |ids| ==> ids[i] in u && u[ids[i]] == NewRow(envelopeFrom, msgs[i], now))
  {
    var u := EnqueueTable(t, envelopeFrom, msgs, ids, now);
    InsertedKeys(t, NewRows(envelopeFrom, msgs, now), ids);
    InsertedRows(t, NewRows(envelopeFrom, msgs, now), ids);
    ElemsSize(ids);
    assert t.Keys !! Elems(ids);
    assert |u.Keys| == |t.Keys| + |ids| && |u.Keys| == |u| && |t.Keys| == |t|;
  }

  // ----- Claim

  predicate Claimable(r: Row, now: Time) {
    r.status.Waiting() && r.nextAttemptAt <= now
  }

  /** An answer of the claim's SELECT before LIMIT: all eligible ids, oldest first, ties in any order. */
  ghost predicate IsEligibleOrder(t: Table, now: Time, order: seq<JobId>) {
    && Distinct(order)
    && (forall id :: id in order ==> id in t && Claimable(t[id], now))
    && (forall id :: id in t && Claimable(t[id], now) ==> id in order)
    && ByAge(t, order)
  }

  ghost predicate ByAge(t: Table, order: seq<JobId>) {
    forall i, j :: 0 <= i < j < |order| ==>
      order[i] in t && order[j] in t && t[order[i]].createdAt <= t[order[j]].createdAt
  }

  function ClaimRow(r: Row, worker: string, now: Time): Row {
    r.(status := Processing, workerId := Some(worker), startedAt := Some(now), updatedAt := now)
  }

  function ClaimTable(t: Table, ids: seq<JobId>, worker: string, now: Time): Table {
    map id | id in t :: if id in ids && Claimable(t[id], now) then ClaimRow(t[id], worker, now) else t[id]
  }

  predicate Leased(r: Row, worker: string) {
    r.status.Processing? && r.workerId == Some(worker)
  }

  /** An answer of the claim's second SELECT: the ids among those given that the worker holds, again oldest first. */
  ghost predicate IsReread(t: Table, ids: seq<JobId>, worker: string, reread: seq<JobId>) {
    && Distinct(reread)
    && (forall id :: id in reread <==> id in ids && id in t && Leased(t[id], worker))
    && ByAge(t, reread)
  }

  /** What a claim updates it reads back, whatever the order. */
  lemma RereadAll(t: Table, ids: seq<JobId>, worker: string, now: Time, reread: seq<JobId>)
    requires Distinct(ids) && (forall id :: id in ids ==> id in t && Claimable(t[id], now))
    requires IsReread(ClaimTable(t, ids, worker, now), ids, worker, reread)
    ensures forall id :: id in reread <==> id in ids
    ensures |reread| == |ids|
  {
    assert Elems(reread) == Elems(ids);
    ElemsSize(reread);
    ElemsSize(ids);
  }

  ghost function JobsAt(t: Table, ids: seq<JobId>): (js: seq<Job>)
    requires forall id :: id in ids ==> id in t
    ensures |js| == |ids|
  {
    seq(|ids|, i requires 0 <= i < |ids| => Job(ids[i], t[ids[i]]))
  }

  // ----- Marks

  datatype Mark =
    | MarkSent(bulkId: string)
    | MarkRetry(nextAt: Time, error: string, http: int)
    | MarkDlq(error: string, http: int)

  /** The UPDATE of one mark; its WHERE clause asks only for status processing. */
  function MarkRow(r: Row, m: Mark, now: Time): Row {
    if !r.status.Processing? then r
    else
      var released := r.(attempts := r.attempts + 1, workerId := None, startedAt := None, updatedAt := now);
      match m
      case MarkSent(bulkId) =>
        released.(status := Sent, bulkEmailId := Some(bulkId), lastError := None, lastHttpStatus := None)
      case MarkRetry(nextAt, error, http) =>
        released.(status := Retry, nextAttemptAt := nextAt, lastError := Some(error), lastHttpStatus := Some(http))
      case MarkDlq(error, http) =>
        released.(status := Dlq, lastError := Some(error), lastHttpStatus := Some(http))
  }

  ghost predicate Carries(batch: seq<Job>, id: JobId) {
    exists job :: job in batch && job.id == id
  }

  lemma JobsAtCarries(t: Table, ids: seq<JobId>, id: JobId)
    requires forall x :: x in ids ==> x in t
    ensures Carries(JobsAt(t, ids), id) <==> id in ids
    ensures forall job :: job in JobsAt(t, ids) ==> job.id in ids && job == Job(job.id, t[job.id])
  {
    var js := JobsAt(t, ids);
    forall job | job in js ensures job.id in ids && job == Job(job.id, t[job.id]) {
      var i :| 0 <= i < |js| && js[i] == job;
      assert ids[i] in ids;
    }
    if id in ids {
      var i :| 0 <= i < |ids| && ids[i] == id;
      assert js[i] in js;
    }
  }

  ghost function MarkTable(t: Table, batch: seq<Job>, m: Mark, now: Time): Table {
    map id | id in t :: if Carries(batch, id) then MarkRow(t[id], m, now) else t[id]
  }

  // ----- Maintenance

  predicate Stale(r: Row, now: Time, lease: Time) {
    r.status.Processing? && r.startedAt.Some? && r.startedAt.value < now - lease
  }

  function RequeueRow(r: Row, now: Time): Row {
    r.(status := Retry, nextAttemptAt := now, workerId := None, startedAt := None, updatedAt := now)
  }

  function RequeueTable(t: Table, now: Time, lease: Time): Table {
    map id | id in t :: if Stale(t[id], now, lease) then RequeueRow(t[id], now) else t[id]
  }

  function ReplayRow(r: Row, now: Time): Row {
    r.(status := Retry, nextAttemptAt := now, lastError := None, lastHttpStatus := None,
       workerId := None, startedAt := None, updatedAt := now)
  }

  function ReplayTable(t: Table, ids: seq<JobId>, now: Time): Table {
    map id | id in t :: if t[id].status.Dlq? && id in ids then ReplayRow(t[id], now) else t[id]
  }

  function RetryNowRow(r: Row, now: Time): Row {
    r.(nextAttemptAt := now, updatedAt := now)
  }

  function RetryNowTable(t: Table, now: Time): Table {
    map id | id in t :: if t[id].status.Retry? then RetryNowRow(t[id], now) else t[id]
  }

  /** The row waits for retry, due at once and without a lease; letter, attempts and bulk id are as before. */
  predicate PutBack(r: Row, r': Row, now: Time) {
    && r'.status == Retry && r'.nextAttemptAt == now && r'.updatedAt == now
    && r'.workerId == None && r'.startedAt == None
    && r'.attempts == r.attempts && r'.bulkEmailId == r.bulkEmailId && SameLetter(r, r')
  }

  /** The rows whose contents differ between two tables over the same ids. */
  ghost function Changed(t: Table, t': Table): set<JobId>
    requires t'.Keys == t.Keys
  {
    set id | id in t && t'[id] != t[id]
  }

  // ----- What every row keeps

  /** The columns no statement after the INSERT ever writes. */
  predicate SameLetter(a: Row, b: Row) {
    && a.payload == b.payload && a.envelopeFrom == b.envelopeFrom
    && a.recipient == b.recipient && a.createdAt == b.createdAt
  }

  /** Exactly the processing rows carry a lease. */
  predicate LeaseCoherent(r: Row) {
    && (r.status.Processing? <==> r.startedAt.Some?)
    && (r.status.Processing? <==> r.workerId.Some?)
  }

  ghost function WithStatus(t: Table, st: Status): set<JobId> {
    set id | id in t && t[id].status == st
  }

  /** The five counts of CountByStatus partition the table. */
  lemma CountsPartition(t: Table)
    ensures |WithStatus(t, Queued)| + |WithStatus(t, Processing)| + |WithStatus(t, Retry)|
            + |WithStatus(t, Sent)| + |WithStatus(t, Dlq)| == |t|
  {
    var waiting := WithStatus(t, Queued) + WithStatus(t, Processing);
    var open := waiting + WithStatus(t, Retry);
    var all := open + WithStatus(t, Sent) + WithStatus(t, Dlq);
    assert WithStatus(t, Queued) !! WithStatus(t, Processing);
    assert waiting !! WithStatus(t, Retry);
    assert open !! WithStatus(t, Sent);
    assert open + WithStatus(t, Sent) !! WithStatus(t, Dlq);
    assert all == t.Keys;
  }
}
