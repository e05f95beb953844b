/**
 Greedy batch cutting. The claim loop of the store and the dispatcher's splitBatches both add jobs in
 order until the next one would break the count or byte cap; a first job is always taken.
 */
module BatchCut {
  import opened JobTable

  const JOB_OVERHEAD := 128
  const DEFAULT_MAX_COUNT := 500
  const DEFAULT_MAX_BYTES := 5 * 1024 * 1024

  /** The caller's cap if it is positive, 500 otherwise. */
  function CountCap(maxCount: int): (c: nat)
    ensures c >= 1
    ensures if maxCount > 0 then c == maxCount else c == 500
  {
    if maxCount <= 0 then DEFAULT_MAX_COUNT else maxCount
  }

  /** The caller's cap if it is positive, five MiB otherwise. */
  function ByteCap(maxBytes: int): (b: nat)
    ensures b >= 1
    ensures if maxBytes > 0 then b == maxBytes else b == 5_242_880
  {
    if maxBytes <= 0 then DEFAULT_MAX_BYTES else maxBytes
  }

  function Cost(j: Job): nat {
    |j.row.payload| + JOB_OVERHEAD
  }

  function Bytes(js: seq<Job>): nat {
    if js == [] then 0 else Bytes(js[..|js| - 1]) + Cost(js[|js| - 1])
  }

  /** A batch is within the caps, or is a single job (however large). */
  predicate Fits(js: seq<Job>, maxCount: nat, maxBytes: nat) {
    |js| <= 1 || (|js| <= maxCount && Bytes(js) <= maxBytes)
  }

  function PayloadBytes(js: seq<Job>): nat {
    if js == [] then 0 else PayloadBytes(js[..|js| - 1]) + |js[|js| - 1].row.payload|
  }

  /** The payloads of a batch and 128 bytes for each of its jobs. */
  function Load(js: seq<Job>): nat {
    PayloadBytes(js) + 128 * |js|
  }

  lemma {:induction false} OverheadCovers(js: seq<Job>)
    ensures Bytes(js) == Load(js)
  {
    if js != [] {
      OverheadCovers(js[..|js| - 1]);
    }
  }

  lemma BytesAppend(js: seq<Job>, j: Job)
    ensures Bytes(js + [j]) == Bytes(js) + Cost(j)
  {
    assert (js + [j])[..|js|] == js;
  }

  lemma {:induction false} FitsPrefix(js: seq<Job>, k: nat, maxCount: nat, maxBytes: nat)
    requires Fits(js, maxCount, maxBytes) && k <= |js|
    ensures Fits(js[..k], maxCount, maxBytes) && Bytes(js[..k]) <= Bytes(js)
    decreases |js|
  {
    if k < |js| {
      var front := js[..|js| - 1];
      FitsPrefix(front, k, maxCount, maxBytes);
      assert front[..k] == js[..k];
    } else {
      assert js[..k] == js;
    }
  }

  /** Length of the longest fitting prefix, searching from k. */
  function CutFrom(js: seq<Job>, maxCount: nat, maxBytes: nat, k: nat): (c: nat)
    requires k <= |js| && Fits(js[..k], maxCount, maxBytes)
    ensures k <= c <= |js| && Fits(js[..c], maxCount, maxBytes)
    ensures c < |js| ==> !Fits(js[..c + 1], maxCount, maxBytes)
    decreases |js| - k
  {
    if k < |js| && Fits(js[..k + 1], maxCount, maxBytes) then CutFrom(js, maxCount, maxBytes, k + 1) else k
  }

  function CutLen(js: seq<Job>, maxCount: nat, maxBytes: nat): (c: nat)
    ensures c <= |js| && Fits(js[..c], maxCount, maxBytes)
    ensures c < |js| ==> !Fits(js[..c + 1], maxCount, maxBytes)
    ensures js != [] ==> c >= 1
  {
    CutFrom(js, maxCount, maxBytes, 0)
  }

  /** Only one cut is both allowed and not extendable. */
  lemma CutUnique(js: seq<Job>, maxCount: nat, maxBytes: nat, k: nat)
    requires k <= |js| && Fits(js[..k], maxCount, maxBytes)
    requires k < |js| ==> !Fits(js[..k + 1], maxCount, maxBytes)
    ensures k == CutLen(js, maxCount, maxBytes)
  {
    var c := CutLen(js, maxCount, maxBytes);
    if k < c {
      assert js[..c][..k + 1] == js[..k + 1];
      FitsPrefix(js[..c], k + 1, maxCount, maxBytes);
    } else if c < k {
      assert js[..k][..c + 1] == js[..c + 1];
      FitsPrefix(js[..k], c + 1, maxCount, maxBytes);
    }
  }

  function Split(js: seq<Job>, maxCount: nat, maxBytes: nat): seq<seq<Job>>
    decreases |js|
  {
    if js == [] then []
    else
      var c := CutLen(js, maxCount, maxBytes);
      [js[..c]] + Split(js[c..], maxCount, maxBytes)
  }

  function Flatten(batches: seq<seq<Job>>): seq<Job> {
    if batches == [] then [] else batches[0] + Flatten(batches[1..])
  }

  /** Batches in input order, none empty, each within the caps, none able to take the next job too. */
  ghost predicate GreedyPartition(js: seq<Job>, batches: seq<seq<Job>>, maxCount: nat, maxBytes: nat) {
    && Flatten(batches) == js
    && (forall b :: b in batches ==> b != [] && Fits(b, maxCount, maxBytes))
    && (forall i, k :: 0 <= i && k == i + 1 && k < |batches| ==> Full(batches[i], batches[k], maxCount, maxBytes))
  }

  /** Batch b cannot also take the first job of the batch after it. */
  predicate Full(b: seq<Job>, after: seq<Job>, maxCount: nat, maxBytes: nat) {
    after != [] && !Fits(b + [after[0]], maxCount, maxBytes)
  }

  lemma {:induction false} SplitIsGreedy(js: seq<Job>, maxCount: nat, maxBytes: nat)
    ensures GreedyPartition(js, Split(js, maxCount, maxBytes), maxCount, maxBytes)
    decreases |js|
  {
    if js != [] {
      var c := CutLen(js, maxCount, maxBytes);
      var rest := Split(js[c..], maxCount, maxBytes);
      SplitIsGreedy(js[c..], maxCount, maxBytes);
      var all := [js[..c]] + rest;
      assert all[1..] == rest;
      if rest != [] {
        assert Flatten(rest) == rest[0] + Flatten(rest[1..]);
        assert js[c] == rest[0][0];
        assert js[..c] + [rest[0][0]] == js[..c + 1];
      }
      forall i, k | 0 <= i && k == i + 1 && k < |all|
        ensures Full(all[i], all[k], maxCount, maxBytes)
      {
        if i > 0 {
          assert all[i] == rest[i - 1] && all[k] == rest[k - 1];
        }
      }
    }
  }

  /** The greedy partition is determined by its description alone. */
  lemma {:induction false} GreedyUnique(js: seq<Job>, batches: seq<seq<Job>>, maxCount: nat, maxBytes: nat)
    requires GreedyPartition(js, batches, maxCount, maxBytes)
    ensures batches == Split(js, maxCount, maxBytes)
    decreases |batches|
  {
    if batches != [] {
      var head, rest := batches[0], batches[1..];
      assert js == head + Flatten(rest);
      assert head in batches && head != [];
      var c := |head|;
      assert js[..c] == head && js[c..] == Flatten(rest);
      if rest != [] {
        assert Full(batches[0], batches[1], maxCount, maxBytes);
        assert js[..c + 1] == head + [rest[0][0]];
      } else {
        assert c == |js|;
      }
      CutUnique(js, maxCount, maxBytes, c);
      forall i, k | 0 <= i && k == i + 1 && k < |rest|
        ensures Full(rest[i], rest[k], maxCount, maxBytes)
      {
        assert rest[i] == batches[i + 1] && rest[k] == batches[k + 1];
      }
      assert forall b :: b in rest ==> b in batches;
      GreedyUnique(js[c..], rest, maxCount, maxBytes);
    }
  }

  lemma {:induction false} FlattenAppend(batches: seq<seq<Job>>, b: seq<Job>)
    ensures Flatten(batches + [b]) == Flatten(batches) + b
  {
    if batches == [] {
      assert [b][1..] == [] && b + [] == b;
    } else {
      FlattenAppend(batches[1..], b);
      assert (batches + [b])[1..] == batches[1..] + [b];
    }
  }

  /** The open batch takes one more job. */
  lemma GrowLast(done: seq<Job>, out: seq<seq<Job>>, cur: seq<Job>, j: Job, maxCount: nat, maxBytes: nat)
    requires cur != [] && GreedyPartition(done, out + [cur], maxCount, maxBytes)
    requires Fits(cur + [j], maxCount, maxBytes)
    ensures GreedyPartition(done + [j], out + [cur + [j]], maxCount, maxBytes)
  {
    var before, after := out + [cur], out + [cur + [j]];
    FlattenAppend(out, cur);
    FlattenAppend(out, cur + [j]);
    assert Flatten(out) + (cur + [j]) == (Flatten(out) + cur) + [j];
    assert forall b :: b in out ==> b in before;
    forall i, k | 0 <= i && k == i + 1 && k < |after|
      ensures Full(after[i], after[k], maxCount, maxBytes)
    {
      assert Full(before[i], before[k], maxCount, maxBytes);
    }
  }

  /** The open batch is full: it is closed and the job starts the next one. */
  lemma StartNext(done: seq<Job>, out: seq<seq<Job>>, j: Job, maxCount: nat, maxBytes: nat)
    requires GreedyPartition(done, out, maxCount, maxBytes)
    requires out != [] ==> !Fits(out[|out| - 1] + [j], maxCount, maxBytes)
    ensures GreedyPartition(done + [j], out + [[j]], maxCount, maxBytes)
  {
    FlattenAppend(out, [j]);
    var after := out + [[j]];
    forall i, k | 0 <= i && k == i + 1 && k < |after|
      ensures Full(after[i], after[k], maxCount, maxBytes)
    {
      if k < |out| {
        assert Full(out[i], out[k], maxCount, maxBytes);
      }
    }
  }

  /** The rows a claim looks at: the query's answer cut to its LIMIT. */
  function Page(order: seq<JobId>, limit: int): seq<JobId> {
    if limit <= 0 then [] else if limit < |order| then order[..limit] else order
  }

  /** The ids a claim takes, given the answer of its SELECT. */
  ghost function Selected(t: Table, order: seq<JobId>, limit: int, maxCount: int, maxBytes: int): (ids: seq<JobId>)
    requires forall id :: id in order ==> id in t
    ensures ids <= order
    ensures forall id :: id in ids ==> id in t
    ensures limit >= 1 && order != [] ==> ids != []
  {
    var page := Page(order, limit);
    page[..CutLen(JobsAt(t, page), CountCap(maxCount), ByteCap(maxBytes))]
  }

  /**
   In the caller's numbers, with 500 jobs and five MiB for caps that are not positive: no batch is empty or over the
   count cap, only a single job is over the byte cap, and a batch ends only where the next job would break a cap.
   */
  ghost predicate SplitRight(jobs: seq<Job>, out: seq<seq<Job>>, maxCount: int, maxBytes: int) {
    var count := if maxCount > 0 then maxCount else 500;
    var bytes := if maxBytes > 0 then maxBytes else 5_242_880;
    && Flatten(out) == jobs
    && (forall b :: b in out ==> 1 <= |b| <= count && (|b| > 1 ==> Load(b) <= bytes))
    && (forall i, k :: 0 <= i && k == i + 1 && k < |out| ==>
          out[k] != [] && (|out[i]| == count || Load(out[i] + [out[k][0]]) > bytes))
  }

  lemma GreedyIsRight(jobs: seq<Job>, out: seq<seq<Job>>, maxCount: int, maxBytes: int)
    requires GreedyPartition(jobs, out, CountCap(maxCount), ByteCap(maxBytes))
    ensures SplitRight(jobs, out, maxCount, maxBytes)
  {
    forall b | b in out ensures Bytes(b) == Load(b) {
      OverheadCovers(b);
    }
    forall i, k | 0 <= i && k == i + 1 && k < |out|
      ensures out[k] != [] && (|out[i]| == CountCap(maxCount) || Load(out[i] + [out[k][0]]) > ByteCap(maxBytes))
    {
      assert Full(out[i], out[k], CountCap(maxCount), ByteCap(maxBytes));
      assert out[i] in out;
      OverheadCovers(out[i] + [out[k][0]]);
    }
  }

  /**
   How many of the listed rows a claim takes, in the caller's numbers: it stops only at the end of the list, at the
   query's LIMIT, at the count cap, or before a row that would break the byte cap; a first row is always taken.
   */
  ghost predicate StopsRight(t: Table, order: seq<JobId>, k: nat, limit: int, maxCount: int, maxBytes: int)
    requires forall id :: id in order ==> id in t
  {
    var count := if maxCount > 0 then maxCount else 500;
    var bytes := if maxBytes > 0 then maxBytes else 5_242_880;
    var js := JobsAt(t, order);
    && k <= |order| && (limit <= 0 ==> k == 0)
    && (limit > 0 ==>
          && k <= limit && k <= count && (order != [] ==> k >= 1) && (k > 1 ==> Load(js[..k]) <= bytes)
          && (k == |order| || k == limit || k == count || Load(js[..k + 1]) > bytes))
  }

  lemma SelectedStops(t: Table, order: seq<JobId>, limit: int, maxCount: int, maxBytes: int)
    requires forall id :: id in order ==> id in t
    ensures var ids := Selected(t, order, limit, maxCount, maxBytes);
            ids == order[..|ids|] && StopsRight(t, order, |ids|, limit, maxCount, maxBytes)
  {
    var page := Page(order, limit);
    var js, all := JobsAt(t, page), JobsAt(t, order);
    var k := CutLen(js, CountCap(maxCount), ByteCap(maxBytes));
    assert js[..k] == all[..k];
    OverheadCovers(all[..k]);
    if k < |js| {
      assert js[..k + 1] == all[..k + 1];
      OverheadCovers(all[..k + 1]);
    }
  }

  lemma {:induction false} LoadGrows(js: seq<Job>, a: nat, b: nat)
    requires a <= b <= |js|
    ensures Load(js[..a]) <= Load(js[..b])
    decreases b
  {
    if a < b {
      LoadGrows(js, a, b - 1);
      assert js[..b][..b - 1] == js[..b - 1];
    }
  }

  /** The rule leaves no choice. */
  lemma StopsOnce(t: Table, order: seq<JobId>, k: nat, n: nat, limit: int, maxCount: int, maxBytes: int)
    requires forall id :: id in order ==> id in t
    requires StopsRight(t, order, k, limit, maxCount, maxBytes) && StopsRight(t, order, n, limit, maxCount, maxBytes)
    ensures k == n
  {
    if k < n {
      LoadGrows(JobsAt(t, order), k + 1, n);
    } else if n < k {
      LoadGrows(JobsAt(t, order), n + 1, k);
    }
  }

  /** The dispatcher's splitBatches. */
  method SplitBatches(jobs: seq<Job>, maxCount: int, maxBytes: int) returns (out: seq<seq<Job>>)
    ensures SplitRight(jobs, out, maxCount, maxBytes)
    ensures GreedyPartition(jobs, out, CountCap(maxCount), ByteCap(maxBytes))
  {
    var countCap, byteCap := CountCap(maxCount), ByteCap(maxBytes);
    out := [];
    var cur: seq<Job> := [];
    var curBytes := 0;
    for i := 0 to |jobs|
      invariant i == 0 ==> out == [] && cur == []
      invariant i > 0 ==> cur != [] && GreedyPartition(jobs[..i], out + [cur], countCap, byteCap)
      invariant curBytes == Bytes(cur)
    {
      assert jobs[..i + 1] == jobs[..i] + [jobs[i]];
      BytesAppend(cur, jobs[i]);
      if |cur| > 0 && (|cur| >= countCap || curBytes + Cost(jobs[i]) > byteCap) {
        StartNext(jobs[..i], out + [cur], jobs[i], countCap, byteCap);
        out := out + [cur];
        cur := [];
        curBytes := 0;
        BytesAppend(cur, jobs[i]);
      } else if i == 0 {
        StartNext([], [], jobs[i], countCap, byteCap);
      } else {
        GrowLast(jobs[..i], out, cur, jobs[i], countCap, byteCap);
      }
      cur := cur + [jobs[i]];
      curBytes := curBytes + Cost(jobs[i]);
    }
    assert jobs[..|jobs|] == jobs;
    if |cur| > 0 {
      out := out + [cur];
    }
    GreedyIsRight(jobs, out, maxCount, maxBytes);
  }
}
