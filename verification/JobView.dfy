/**
 The life of one job, seen alone: its row, its history, and the workers that hold it.
 Every step of the whole protocol acts on one job as one step of this small machine (module Simulation), so a
 property of every run of this machine is a property of every job in every run of the protocol.
 */
module JobView {
  import opened Prelude
  import opened JobTable
  import opened Dispatch
  import opened Protocol

  datatype Stage = Unsent | Confirmed | Denied

  /** A worker's hold: when it claimed, whether its snapshot has a retry left, and how its send went. */
  datatype Hold = Hold(at: Time, early: bool, stage: Stage)

  datatype View = View(
    clock: Time,
    row: Row,
    entry: Entry,
    holds: map<nat, Hold>,
    accepted: nat,
    rejected: nat,
    bulkIds: set<string>,
    codes: set<int>)

  datatype ViewStep =
    | VSkip
    | VTick(elapsed: nat)
    | VClaim(w: nat, now: Time)
    | VSendOk(w: nat, bulkId: string)
    | VSendFail(w: nat, code: int)
    | VMark(w: nat, m: Mark, now: Time)
    | VForget(w: nat)
    | VRequeue(now: Time)
    | VReplay(now: Time)
    | VRetryNow(now: Time)

  predicate ViewEnabled(cfg: Config, v: View, vs: ViewStep) {
    match vs
    case VSkip => true
    case VTick(_) => true
    case VClaim(w, now) => w < cfg.workers && w !in v.holds && now <= v.clock && Claimable(v.row, now)
    case VSendOk(w, _) => w in v.holds && v.holds[w].stage == Unsent
    case VSendFail(w, _) => w in v.holds && v.holds[w].stage == Unsent
    case VMark(w, m, now) =>
      && w in v.holds && now <= v.clock
      && (m.MarkSent? ==> v.holds[w].stage == Confirmed && m.bulkId in v.bulkIds)
      && (m.MarkRetry? ==>
            v.holds[w].stage == Denied && m.http in v.codes && v.holds[w].early
            && now + MIN_BACKOFF <= m.nextAt <= now + MAX_BACKOFF)
      && (m.MarkDlq? ==>
            v.holds[w].stage == Denied && m.http in v.codes
            && (ClassifyFailure(m.http, true) == Permanent || !v.holds[w].early))
    case VForget(w) => w in v.holds
    case VRequeue(now) => now <= v.clock && Stale(v.row, now, cfg.lease)
    case VReplay(now) => now <= v.clock && v.row.status.Dlq?
    case VRetryNow(now) => now <= v.clock && v.row.status.Retry?
  }

  function ViewApply(cfg: Config, v: View, vs: ViewStep): View
    requires ViewEnabled(cfg, v, vs)
  {
    match vs
    case VSkip => v
    case VTick(elapsed) => v.(clock := v.clock + elapsed)
    case VClaim(w, now) =>
      v.(row := ClaimRow(v.row, cfg.workerId, now),
         entry := v.entry.(owner := w, epochAccepted := false),
         holds := v.holds[w := Hold(now, v.row.attempts + 1 < cfg.retryMax, Unsent)])
    case VSendOk(w, bulkId) =>
      v.(holds := v.holds[w := v.holds[w].(stage := Confirmed)],
         entry := if v.row.status.Processing? && v.entry.owner == w then v.entry.(epochAccepted := true) else v.entry,
         accepted := v.accepted + 1,
         bulkIds := v.bulkIds + {bulkId})
    case VSendFail(w, code) =>
      v.(holds := v.holds[w := v.holds[w].(stage := Denied)],
         rejected := v.rejected + 1,
         codes := v.codes + {code})
    case VMark(w, m, now) => v.(row := MarkRow(v.row, m, now), holds := v.holds - {w})
    case VForget(w) =>
      v.(holds := v.holds - {w},
         entry := if v.holds[w].stage == Confirmed then v.entry.(lostAcks := v.entry.lostAcks + 1) else v.entry)
    case VRequeue(now) => v.(row := RequeueRow(v.row, now), entry := v.entry.(requeues := v.entry.requeues + 1))
    case VReplay(now) => v.(row := ReplayRow(v.row, now), entry := v.entry.(replays := v.entry.replays + 1))
    case VRetryNow(now) => v.(row := RetryNowRow(v.row, now))
  }

  /** The view of a job just enqueued. */
  predicate FreshView(v: View) {
    && v.row.status.Queued? && v.row.attempts == 0 && v.row.startedAt.None? && v.row.workerId.None?
    && v.row.nextAttemptAt <= v.clock && v.row.createdAt <= v.clock
    && v.entry == Entry(0, 0, 0, 0, false) && v.holds == map[]
    && v.accepted == 0 && v.rejected == 0 && v.bulkIds == {} && v.codes == {}
    && v.row.lastHttpStatus.None?
  }

  // ----- Shape: leases, times, worker numbers

  ghost predicate ShapeInv(cfg: Config, v: View) {
    && LeaseCoherent(v.row)
    && (forall w :: w in v.holds ==> w < cfg.workers && v.holds[w].at <= v.clock)
    && (v.row.startedAt.Some? ==> v.row.startedAt.value <= v.clock)
    && v.row.createdAt <= v.clock
    && v.row.nextAttemptAt <= v.clock + MAX_BACKOFF
  }

  lemma ShapeStep(cfg: Config, v: View, vs: ViewStep)
    requires ShapeInv(cfg, v) && ViewEnabled(cfg, v, vs)
    ensures ShapeInv(cfg, ViewApply(cfg, v, vs))
  {}

  // ----- Duplicates

  /** Holders that may still be accepted or may still undo the current epoch, other than its owner. */
  ghost function Orphans(v: View): set<nat> {
    set w | w in v.holds && v.holds[w].stage != Confirmed && !(v.row.status.Processing? && v.entry.owner == w)
  }

  ghost predicate DuplicateInv(v: View) {
    && v.accepted + |Orphans(v)|
       <= v.entry.requeues + Bit(v.row.status.Sent?) + Bit(v.row.status.Processing? && v.entry.epochAccepted)
    && (v.row.status.Processing? && v.entry.epochAccepted && v.entry.owner in v.holds ==>
          v.holds[v.entry.owner].stage == Confirmed)
  }

  lemma DropOne(o: set<nat>, w: nat)
    ensures |o - {w}| + Bit(w in o) == |o|
  {}

  /** A mark removes its holder; an owner whose epoch another worker's mark ends becomes an orphan. */
  lemma OrphansAfterMark(cfg: Config, v: View, w: nat, m: Mark, now: Time)
    requires ViewEnabled(cfg, v, VMark(w, m, now))
    ensures var o, o', owner := Orphans(v), Orphans(ViewApply(cfg, v, VMark(w, m, now))), v.entry.owner;
            if v.row.status.Processing? && owner != w && owner in v.holds && v.holds[owner].stage != Confirmed
            then o' == o - {w} + {owner} && owner !in o
            else o' == o - {w}
  {}

  /** The row is not processing: the mark changes nothing, and its holder is gone. */
  lemma DuplicateVoidMark(cfg: Config, v: View, w: nat, m: Mark, now: Time)
    requires DuplicateInv(v) && ViewEnabled(cfg, v, VMark(w, m, now)) && !v.row.status.Processing?
    ensures DuplicateInv(ViewApply(cfg, v, VMark(w, m, now)))
  {
    OrphansAfterMark(cfg, v, w, m, now);
    DropOne(Orphans(v), w);
  }

  /** The owner marks: an accepted epoch ends in sent, any other in a row without an open epoch. */
  lemma DuplicateOwnMark(cfg: Config, v: View, w: nat, m: Mark, now: Time)
    requires DuplicateInv(v) && ViewEnabled(cfg, v, VMark(w, m, now)) && v.row.status.Processing? && v.entry.owner == w
    ensures DuplicateInv(ViewApply(cfg, v, VMark(w, m, now)))
  {
    OrphansAfterMark(cfg, v, w, m, now);
    DropOne(Orphans(v), w);
    assert m.MarkSent? || !v.entry.epochAccepted;
  }

  /** A late marker ends another worker's epoch as sent: an owner not yet accepted becomes an orphan. */
  lemma DuplicateLateSent(cfg: Config, v: View, w: nat, m: Mark, now: Time)
    requires DuplicateInv(v) && ViewEnabled(cfg, v, VMark(w, m, now)) && v.row.status.Processing? && v.entry.owner != w
    requires m.MarkSent?
    ensures DuplicateInv(ViewApply(cfg, v, VMark(w, m, now)))
  {
    OrphansAfterMark(cfg, v, w, m, now);
    DropOne(Orphans(v), w);
  }

  /** A late marker takes the row back: it was itself an orphan, and the owner may take its place. */
  lemma DuplicateLateRefusal(cfg: Config, v: View, w: nat, m: Mark, now: Time)
    requires DuplicateInv(v) && ViewEnabled(cfg, v, VMark(w, m, now)) && v.row.status.Processing? && v.entry.owner != w
    requires !m.MarkSent?
    ensures DuplicateInv(ViewApply(cfg, v, VMark(w, m, now)))
  {
    OrphansAfterMark(cfg, v, w, m, now);
    DropOne(Orphans(v), w);
    assert w in Orphans(v);
  }

  lemma DuplicateMark(cfg: Config, v: View, w: nat, m: Mark, now: Time)
    requires DuplicateInv(v) && ViewEnabled(cfg, v, VMark(w, m, now))
    ensures DuplicateInv(ViewApply(cfg, v, VMark(w, m, now)))
  {
    if !v.row.status.Processing? {
      DuplicateVoidMark(cfg, v, w, m, now);
    } else if v.entry.owner == w {
      DuplicateOwnMark(cfg, v, w, m, now);
    } else if m.MarkSent? {
      DuplicateLateSent(cfg, v, w, m, now);
    } else {
      DuplicateLateRefusal(cfg, v, w, m, now);
    }
  }

  lemma DuplicateSend(cfg: Config, v: View, w: nat, bulkId: string)
    requires DuplicateInv(v) && ViewEnabled(cfg, v, VSendOk(w, bulkId))
    ensures DuplicateInv(ViewApply(cfg, v, VSendOk(w, bulkId)))
  {
    var o, o' := Orphans(v), Orphans(ViewApply(cfg, v, VSendOk(w, bulkId)));
    assert o' == o - {w};
    if !(v.row.status.Processing? && v.entry.owner == w) {
      assert w in o;
    }
  }

  lemma DuplicateRequeue(cfg: Config, v: View, now: Time)
    requires DuplicateInv(v) && ViewEnabled(cfg, v, VRequeue(now))
    ensures DuplicateInv(ViewApply(cfg, v, VRequeue(now)))
  {
    var o, o' := Orphans(v), Orphans(ViewApply(cfg, v, VRequeue(now)));
    if v.entry.owner in v.holds && v.holds[v.entry.owner].stage != Confirmed {
      assert o' == o + {v.entry.owner};
    } else {
      assert o' == o;
    }
  }

  lemma DuplicateStep(cfg: Config, v: View, vs: ViewStep)
    requires DuplicateInv(v) && ViewEnabled(cfg, v, vs)
    ensures DuplicateInv(ViewApply(cfg, v, vs))
  {
    match vs
    case VSendOk(w, bulkId) => DuplicateSend(cfg, v, w, bulkId);
    case VMark(w, m, now) => DuplicateMark(cfg, v, w, m, now);
    case VRequeue(now) => DuplicateRequeue(cfg, v, now);
    case VForget(w) => assert Orphans(ViewApply(cfg, v, vs)) == Orphans(v) - {w};
    case _ => assert Orphans(ViewApply(cfg, v, vs)) == Orphans(v);
  }

  // ----- Retry budget

  /** Holders that decide to retry if refused, whatever the row says by then. */
  ghost function Early(v: View): set<nat> {
    set w | w in v.holds && v.holds[w].early
  }

  /** The most attempts an unfinished job can have had, without replays. */
  function AttemptCap(cfg: Config): int {
    cfg.retryMax - 1 + (if cfg.retryMax >= 2 then cfg.workers - 1 else 0)
  }

  ghost predicate BudgetInv(cfg: Config, v: View) {
    v.row.attempts + |Early(v)| <= AttemptCap(cfg) + v.entry.replays + Bit(v.row.status.Finished())
  }

  lemma EarlyBound(cfg: Config, v: View)
    requires ShapeInv(cfg, v)
    ensures |Early(v)| <= cfg.workers
  {
    BelowSize(Early(v), cfg.workers);
  }

  lemma {:induction false} BelowSize(s: set<nat>, n: nat)
    requires forall w :: w in s ==> w < n
    ensures |s| <= n
    decreases n
  {
    if n == 0 {
      assert s == {};
    } else {
      BelowSize(s - {n - 1}, n - 1);
      assert |s| <= |s - {n - 1}| + 1;
    }
  }

  lemma BudgetStep(cfg: Config, v: View, vs: ViewStep)
    requires cfg.retryMax >= 1
    requires ShapeInv(cfg, v) && BudgetInv(cfg, v) && ViewEnabled(cfg, v, vs)
    ensures BudgetInv(cfg, ViewApply(cfg, v, vs))
  {
    var v' := ViewApply(cfg, v, vs);
    match vs
    case VClaim(w, _) =>
      ShapeStep(cfg, v, vs);
      EarlyBound(cfg, v');
      if v.row.attempts + 1 >= cfg.retryMax {
        assert Early(v') == Early(v);
      }
    case VMark(w, _, _) => assert Early(v') == Early(v) - {w};
    case VForget(w) => assert Early(v') == Early(v) - {w};
    case _ => assert Early(v') == Early(v);
  }

  // ----- Evidence for a status

  ghost predicate EvidenceInv(cfg: Config, v: View) {
    && (forall w :: w in v.holds && !v.holds[w].early ==> v.row.attempts + 1 >= cfg.retryMax)
    && (v.row.status.Sent? ==> v.row.bulkEmailId.Some? && v.row.bulkEmailId.value in v.bulkIds)
    && (v.row.lastHttpStatus.Some? ==> v.row.lastHttpStatus.value in v.codes)
    && (v.row.status.Dlq? ==>
          v.row.lastHttpStatus.Some?
          && (ClassifyFailure(v.row.lastHttpStatus.value, true) == Permanent || v.row.attempts >= cfg.retryMax))
  }

  lemma EvidenceStep(cfg: Config, v: View, vs: ViewStep)
    requires EvidenceInv(cfg, v) && ViewEnabled(cfg, v, vs)
    ensures EvidenceInv(cfg, ViewApply(cfg, v, vs))
  {}

  // ----- Attempts are paid for by API calls

  ghost function Spent(v: View): set<nat> {
    set w | w in v.holds && v.holds[w].stage != Unsent
  }

  ghost predicate CallInv(v: View) {
    v.row.attempts + |Spent(v)| <= v.accepted + v.rejected
  }

  lemma CallStep(cfg: Config, v: View, vs: ViewStep)
    requires CallInv(v) && ViewEnabled(cfg, v, vs)
    ensures CallInv(ViewApply(cfg, v, vs))
  {
    SpentAfter(cfg, v, vs);
    if vs.VMark? || vs.VForget? {
      DropOne(Spent(v), vs.w);
    }
  }

  lemma SpentAfter(cfg: Config, v: View, vs: ViewStep)
    requires ViewEnabled(cfg, v, vs)
    ensures var p, p' := Spent(v), Spent(ViewApply(cfg, v, vs));
            && (vs.VSendOk? || vs.VSendFail? ==> p' == p + {vs.w} && vs.w !in p)
            && (vs.VMark? || vs.VForget? ==> p' == p - {vs.w})
            && (vs.VMark? ==> vs.w in p)
            && (vs.VSkip? || vs.VTick? || vs.VClaim? || vs.VRequeue? || vs.VReplay? || vs.VRetryNow? ==> p' == p)
  {}

  // ----- Exclusive holding

  /** The job has at most one holder, it is the current owner, and row and snapshot agree with it. */
  ghost predicate Exclusive(cfg: Config, v: View) {
    forall w :: w in v.holds ==>
      && v.row.status.Processing? && v.entry.owner == w && v.row.startedAt == Some(v.holds[w].at)
      && (v.holds[w].early <==> v.row.attempts + 1 < cfg.retryMax)
  }

  /** No hold has outlived its lease. */
  ghost predicate TimelyView(cfg: Config, v: View) {
    forall w :: w in v.holds ==> v.clock <= v.holds[w].at + cfg.lease
  }

  lemma ExclusiveStep(cfg: Config, v: View, vs: ViewStep)
    requires ShapeInv(cfg, v) && Exclusive(cfg, v) && ViewEnabled(cfg, v, vs)
    requires vs.VRequeue? ==> v.holds == map[]
    ensures Exclusive(cfg, ViewApply(cfg, v, vs))
  {}

  /** A lone owner whose lease has not run out cannot be requeued. */
  lemma TimelyKeeps(cfg: Config, v: View, now: Time)
    requires Exclusive(cfg, v) && TimelyView(cfg, v) && now <= v.clock && v.holds != map[]
    ensures !Stale(v.row, now, cfg.lease)
  {
    var w :| w in v.holds;
  }

  // ----- Acceptances and lost acknowledgements

  ghost function Confirmers(v: View): set<nat> {
    set w | w in v.holds && v.holds[w].stage == Confirmed
  }

  /** Every lost acknowledgement, and every one still in a worker's hands, was an acceptance. */
  ghost predicate AckFloor(v: View) {
    v.entry.lostAcks + |Confirmers(v)| <= v.accepted
  }

  lemma AckFloorStep(cfg: Config, v: View, vs: ViewStep)
    requires AckFloor(v) && ViewEnabled(cfg, v, vs)
    ensures AckFloor(ViewApply(cfg, v, vs))
  {
    ConfirmersAfter(cfg, v, vs);
    if vs.VMark? || vs.VForget? {
      DropOne(Confirmers(v), vs.w);
    }
  }

  lemma ConfirmersAfter(cfg: Config, v: View, vs: ViewStep)
    requires ViewEnabled(cfg, v, vs)
    ensures var c, c' := Confirmers(v), Confirmers(ViewApply(cfg, v, vs));
            && (vs.VSendOk? ==> c' == c + {vs.w} && vs.w !in c)
            && (vs.VMark? || vs.VForget? ==> c' == c - {vs.w})
            && (!vs.VSendOk? && !vs.VMark? && !vs.VForget? ==> c' == c)
  {}

  /** The only worker there is was refused: nobody can claim the job before it lets go. */
  predicate Harmless(cfg: Config, h: Hold) {
    cfg.workers == 1 && h.stage == Denied
  }

  /** Every holder still owns the lease, or can do no harm without it. */
  ghost predicate Loyal(cfg: Config, v: View) {
    forall w :: w in v.holds ==>
      if v.row.status.Processing? then v.entry.owner == w else Harmless(cfg, v.holds[w])
  }

  lemma LoyalStep(cfg: Config, v: View, vs: ViewStep)
    requires ShapeInv(cfg, v) && Loyal(cfg, v) && ViewEnabled(cfg, v, vs)
    requires vs.VRequeue? ==> forall w :: w in v.holds ==> Harmless(cfg, v.holds[w])
    ensures Loyal(cfg, ViewApply(cfg, v, vs))
  {}

  ghost predicate AckInv(v: View) {
    v.accepted <= v.entry.lostAcks + Bit(v.row.status.Sent?)
                  + Bit(exists w :: w in v.holds && v.holds[w].stage == Confirmed)
  }

  lemma AckedOnce(cfg: Config, v: View)
    requires Loyal(cfg, v) && AckInv(v)
    ensures v.accepted <= 1 + v.entry.lostAcks
  {}

  /** While no live holder is robbed of its lease, a second acceptance needs an acknowledgement lost after the first. */
  lemma AckStep(cfg: Config, v: View, vs: ViewStep)
    requires ShapeInv(cfg, v) && Loyal(cfg, v) && AckInv(v) && ViewEnabled(cfg, v, vs)
    ensures AckInv(ViewApply(cfg, v, vs))
  {
    var v' := ViewApply(cfg, v, vs);
    match vs
    case VSendOk(w, _) => assert w in v'.holds && v'.holds[w].stage == Confirmed;
    case VSendFail(w, _) =>
      assert forall x :: x in v.holds ==> x == w;
    case VMark(w, _, _) =>
      assert forall x :: x in v.holds ==> x == w;
    case VForget(w) =>
      assert forall x :: x in v.holds ==> x == w;
    case VClaim(w, _) => assert forall x :: x in v'.holds ==> x == w || x in v.holds;
    case VSkip =>
    case VTick(_) =>
    case VRequeue(_) =>
    case VReplay(_) =>
    case VRetryNow(_) =>
  }

  // ----- Jobs never requeued nor replayed

  ghost predicate QuietInv(cfg: Config, v: View) {
    && (v.entry.requeues == 0 ==> Exclusive(cfg, v))
    && (v.entry.requeues == 0 && v.entry.replays == 0 && !v.row.status.Finished() ==> v.row.attempts < cfg.retryMax)
  }

  lemma QuietStep(cfg: Config, v: View, vs: ViewStep)
    requires ShapeInv(cfg, v) && QuietInv(cfg, v) && ViewEnabled(cfg, v, vs)
    ensures QuietInv(cfg, ViewApply(cfg, v, vs))
  {
    if !vs.VRequeue? && v.entry.requeues == 0 {
      ExclusiveStep(cfg, v, vs);
    }
  }

  // ----- All of it

  ghost predicate ViewInv(cfg: Config, v: View) {
    && ShapeInv(cfg, v) && DuplicateInv(v) && BudgetInv(cfg, v) && EvidenceInv(cfg, v)
    && CallInv(v) && AckFloor(v) && QuietInv(cfg, v)
  }

  lemma ViewInvInit(cfg: Config, v: View)
    requires ValidConfig(cfg) && FreshView(v)
    ensures ViewInv(cfg, v) && Exclusive(cfg, v) && Loyal(cfg, v) && AckInv(v)
  {
    assert Orphans(v) == {};
    assert Confirmers(v) == {};
    assert Early(v) == {};
    assert Spent(v) == {};
  }

  lemma ViewInvStep(cfg: Config, v: View, vs: ViewStep)
    requires ValidConfig(cfg) && ViewInv(cfg, v) && ViewEnabled(cfg, v, vs)
    ensures ViewInv(cfg, ViewApply(cfg, v, vs))
  {
    ShapeStep(cfg, v, vs);
    DuplicateStep(cfg, v, vs);
    BudgetStep(cfg, v, vs);
    EvidenceStep(cfg, v, vs);
    CallStep(cfg, v, vs);
    AckFloorStep(cfg, v, vs);
    QuietStep(cfg, v, vs);
  }
}
