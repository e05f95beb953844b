/** The dispatcher's decisions: what a failure means, how long to back off, which jobs are out of retries. */
module Dispatch {
  import opened JobTable

  datatype Class = Success | RetryLater | Permanent

  /** A failure is permanent exactly for 4xx answers other than 408, 425 and 429. */
  function ClassifyFailure(statusCode: int, failed: bool): (c: Class)
    ensures c == Success <==> !failed
    ensures c == Permanent <==> failed && 400 <= statusCode < 500 && statusCode !in {408, 425, 429}
  {
    if !failed then Success
    else if statusCode == 0 then RetryLater
    else if statusCode == 408 || statusCode == 425 || statusCode == 429 || statusCode >= 500 then RetryLater
    else if statusCode in {400, 401, 403, 404, 405, 409, 410, 413, 422} then Permanent
    else if 400 <= statusCode < 500 then Permanent
    else RetryLater
  }

  const SECOND: int := 1_000_000_000

  const BACKOFF_SCHEDULE: seq<int> :=
    [1 * SECOND, 5 * SECOND, 15 * SECOND, 60 * SECOND, 300 * SECOND, 900 * SECOND, 3600 * SECOND, 21600 * SECOND]

  const MIN_BACKOFF: int := 800_000_000
  const MAX_BACKOFF: int := 25920 * SECOND

  function BackoffBase(attemptNumber: int): (b: int)
    ensures SECOND <= b <= 21600 * SECOND
    ensures attemptNumber <= 1 ==> b == 1_000_000_000
    ensures 1 <= attemptNumber <= 8 ==>
              b == [1, 5, 15, 60, 300, 900, 3600, 21600][attemptNumber - 1] * 1_000_000_000
    ensures attemptNumber >= 8 ==> b == 21_600_000_000_000
  {
    var n := if attemptNumber < 1 then 1 else attemptNumber;
    var idx := if n - 1 >= |BACKOFF_SCHEDULE| then |BACKOFF_SCHEDULE| - 1 else n - 1;
    BACKOFF_SCHEDULE[idx]
  }

  /** The jitter factor is any real of the drawn range; the product is truncated to whole nanoseconds. */
  function JitteredBackoff(attemptNumber: int, jitter: real): (d: int)
    ensures d as real <= BackoffBase(attemptNumber) as real * jitter < d as real + 1.0
  {
    (BackoffBase(attemptNumber) as real * jitter).Floor
  }

  /** Later attempts never wait less, jitter aside. */
  lemma BackoffGrows(a: int, b: int)
    requires a <= b
    ensures BackoffBase(a) <= BackoffBase(b)
    ensures 1 <= a < b <= 8 ==> BackoffBase(a) < BackoffBase(b)
  {}

  /** Every backoff is within a fifth of its schedule entry, hence between 0.8 s and 7.2 h. */
  lemma BackoffWindow(attemptNumber: int, jitter: real)
    requires 0.8 <= jitter <= 1.2
    ensures 8 * BackoffBase(attemptNumber) <= 10 * JitteredBackoff(attemptNumber, jitter) + 10
    ensures 10 * JitteredBackoff(attemptNumber, jitter) <= 12 * BackoffBase(attemptNumber)
    ensures MIN_BACKOFF <= JitteredBackoff(attemptNumber, jitter) <= MAX_BACKOFF
  {
    var b := BackoffBase(attemptNumber);
    var product := b as real * jitter;
    assert b as real * 0.8 <= product <= b as real * 1.2;
    var d := product.Floor;
    assert d as real <= product < d as real + 1.0;
    assert 800_000_000.0 <= b as real * 0.8;
  }

  // ----- Splitting a refused batch

  predicate HasRetryLeft(job: Job, retryMax: int) {
    job.row.attempts + 1 < retryMax
  }

  function RetryJobs(batch: seq<Job>, retryMax: int): seq<Job> {
    if batch == [] then []
    else
      var front, job := RetryJobs(batch[..|batch| - 1], retryMax), batch[|batch| - 1];
      if HasRetryLeft(job, retryMax) then front + [job] else front
  }

  function SpentJobs(batch: seq<Job>, retryMax: int): seq<Job> {
    if batch == [] then []
    else
      var front, job := SpentJobs(batch[..|batch| - 1], retryMax), batch[|batch| - 1];
      if HasRetryLeft(job, retryMax) then front else front + [job]
  }

  /** The two lists hold exactly the batch's jobs with and without a retry left. */
  lemma {:induction false} SplitMembers(batch: seq<Job>, retryMax: int)
    ensures forall job :: job in RetryJobs(batch, retryMax) <==> job in batch && job.row.attempts + 1 < retryMax
    ensures forall job :: job in SpentJobs(batch, retryMax) <==> job in batch && job.row.attempts + 1 >= retryMax
  {
    if batch != [] {
      var front, last := batch[..|batch| - 1], batch[|batch| - 1];
      SplitMembers(front, retryMax);
      assert forall job :: job in batch <==> job in front || job == last;
    }
  }

  /** A single job goes to exactly one of the two lists. */
  lemma SplitOne(job: Job, retryMax: int)
    ensures RetryJobs([job], retryMax) == (if HasRetryLeft(job, retryMax) then [job] else [])
    ensures SpentJobs([job], retryMax) == (if HasRetryLeft(job, retryMax) then [] else [job])
  {
    assert [job][..0] == [];
  }

  lemma RefusedMore(batch: seq<Job>, job: Job, retryMax: int)
    ensures RetryJobs(batch + [job], retryMax)
         == RetryJobs(batch, retryMax) + (if HasRetryLeft(job, retryMax) then [job] else [])
    ensures SpentJobs(batch + [job], retryMax)
         == SpentJobs(batch, retryMax) + (if HasRetryLeft(job, retryMax) then [] else [job])
  {
    assert (batch + [job])[..|batch|] == batch;
  }

  /** Both lists keep the batch's order: the split goes through concatenation. */
  lemma {:induction false} SplitConcat(a: seq<Job>, b: seq<Job>, retryMax: int)
    ensures RetryJobs(a + b, retryMax) == RetryJobs(a, retryMax) + RetryJobs(b, retryMax)
    ensures SpentJobs(a + b, retryMax) == SpentJobs(a, retryMax) + SpentJobs(b, retryMax)
    decreases |b|
  {
    if b == [] {
      assert a + b == a;
    } else {
      var front, last := b[..|b| - 1], b[|b| - 1];
      SplitConcat(a, front, retryMax);
      assert b == front + [last];
      ConcatMore(a, front, last, retryMax);
    }
  }

  lemma ConcatMore(a: seq<Job>, b: seq<Job>, job: Job, retryMax: int)
    requires RetryJobs(a + b, retryMax) == RetryJobs(a, retryMax) + RetryJobs(b, retryMax)
    requires SpentJobs(a + b, retryMax) == SpentJobs(a, retryMax) + SpentJobs(b, retryMax)
    ensures RetryJobs(a + (b + [job]), retryMax) == RetryJobs(a, retryMax) + RetryJobs(b + [job], retryMax)
    ensures SpentJobs(a + (b + [job]), retryMax) == SpentJobs(a, retryMax) + SpentJobs(b + [job], retryMax)
  {
    Regroup(a, b, [job]);
    RefusedMore(b, job, retryMax);
    RefusedMore(a + b, job, retryMax);
    var kept := if HasRetryLeft(job, retryMax) then [job] else [];
    var spent := if HasRetryLeft(job, retryMax) then [] else [job];
    Regroup(RetryJobs(a, retryMax), RetryJobs(b, retryMax), kept);
    Regroup(SpentJobs(a, retryMax), SpentJobs(b, retryMax), spent);
  }

  lemma Regroup(a: seq<Job>, b: seq<Job>, c: seq<Job>)
    ensures (a + b) + c == a + (b + c)
  {}

  /** Together they hold every job of the batch as often as the batch does. */
  lemma {:induction false} SplitKeepsAll(batch: seq<Job>, retryMax: int)
    ensures multiset(batch) == multiset(RetryJobs(batch, retryMax)) + multiset(SpentJobs(batch, retryMax))
  {
    if batch != [] {
      var front := batch[..|batch| - 1];
      SplitKeepsAll(front, retryMax);
      assert batch == front + [batch[|batch| - 1]];
    }
  }
}
