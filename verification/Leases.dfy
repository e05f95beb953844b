/**
 When a second acceptance needs a lost acknowledgement: exactly as long as no stale requeue takes a job from a
 worker that can still deliver it, or beside which another worker can.
 */
module Leases {
  import opened Prelude
  import opened JobTable
  import opened Dispatch
  import opened Protocol
  import opened JobView
  import opened Simulation
  import opened Invariant
  import opened Drain

  ghost predicate HeldBy(s: State, w: nat, id: JobId) {
    w < |s.workers| && Carries(BatchOf(s.workers[w]), id)
  }

  /** A stale requeue at this time would take the job from a worker that still holds it. */
  ghost predicate TakesHeld(cfg: Config, s: State, now: Time, id: JobId) {
    id in s.jobs && Stale(s.jobs[id], now, cfg.lease) && exists w: nat :: HeldBy(s, w, id)
  }

  /** The same, unless the holder was refused and is the only worker there is. */
  ghost predicate TakesLive(cfg: Config, s: State, now: Time, id: JobId) {
    && id in s.jobs && Stale(s.jobs[id], now, cfg.lease)
    && exists w: nat :: HeldBy(s, w, id) && !(cfg.workers == 1 && (s.workers[w].Refused? || s.workers[w].HalfMarked?))
  }

  /** No stale requeue of the run takes any job from its holder. */
  ghost predicate KeepsHolders(cfg: Config, s: State, steps: seq<Step>)
    requires Executable(cfg, s, steps)
    decreases |steps|
  {
    steps != [] ==>
      && (steps[0].RequeueStale? ==> forall id :: !TakesHeld(cfg, s, steps[0].now, id))
      && KeepsHolders(cfg, Apply(cfg, s, steps[0]), steps[1..])
  }

  /** No stale requeue of the run takes this job from a live holder. */
  ghost predicate Respects(cfg: Config, s: State, steps: seq<Step>, id: JobId)
    requires Executable(cfg, s, steps)
    decreases |steps|
  {
    steps != [] ==>
      && (steps[0].RequeueStale? ==> !TakesLive(cfg, s, steps[0].now, id))
      && Respects(cfg, Apply(cfg, s, steps[0]), steps[1..], id)
  }

  lemma {:induction false} KeepsRespects(cfg: Config, s: State, steps: seq<Step>, id: JobId)
    requires Executable(cfg, s, steps) && KeepsHolders(cfg, s, steps)
    ensures Respects(cfg, s, steps, id)
    decreases |steps|
  {
    if steps != [] {
      if steps[0].RequeueStale? {
        assert !TakesHeld(cfg, s, steps[0].now, id);
      }
      KeepsRespects(cfg, Apply(cfg, s, steps[0]), steps[1..], id);
    }
  }

  // ----- While leases are respected

  ghost predicate LoyalInv(cfg: Config, s: State, id: JobId) {
    && Inv(cfg, s)
    && (id in s.jobs ==> Loyal(cfg, ViewOf(cfg, s, id)) && AckInv(ViewOf(cfg, s, id)))
  }

  lemma HoldersHarmless(cfg: Config, s: State, now: Time, id: JobId)
    requires id in s.jobs && id in s.ledger && Stale(s.jobs[id], now, cfg.lease) && !TakesLive(cfg, s, now, id)
    ensures var v := ViewOf(cfg, s, id); forall w :: w in v.holds ==> Harmless(cfg, v.holds[w])
  {
    var v := ViewOf(cfg, s, id);
    forall w | w in v.holds ensures Harmless(cfg, v.holds[w]) {
      HoldsMember(cfg, s.workers, w, id);
      assert HeldBy(s, w, id);
    }
  }

  lemma LoyalViewStep(cfg: Config, s: State, step: Step, id: JobId)
    requires Global(cfg, s) && Enabled(cfg, s, step) && id in s.jobs
    requires var v := ViewOf(cfg, s, id); ShapeInv(cfg, v) && Loyal(cfg, v) && AckInv(v)
    requires step.RequeueStale? ==> !TakesLive(cfg, s, step.now, id)
    ensures id in Apply(cfg, s, step).jobs && id in Apply(cfg, s, step).ledger
    ensures var v := ViewOf(cfg, Apply(cfg, s, step), id); Loyal(cfg, v) && AckInv(v)
  {
    Simulates(cfg, s, step, id);
    var v, vs := ViewOf(cfg, s, id), Project(cfg, s, step, id);
    if vs.VRequeue? {
      HoldersHarmless(cfg, s, step.now, id);
    }
    LoyalStep(cfg, v, vs);
    AckStep(cfg, v, vs);
  }

  lemma LoyalInvStep(cfg: Config, s: State, step: Step, id: JobId)
    requires ValidConfig(cfg) && LoyalInv(cfg, s, id) && Enabled(cfg, s, step)
    requires step.RequeueStale? ==> !TakesLive(cfg, s, step.now, id)
    ensures LoyalInv(cfg, Apply(cfg, s, step), id)
  {
    InvStep(cfg, s, step);
    if id in s.jobs {
      assert ViewInv(cfg, ViewOf(cfg, s, id));
      LoyalViewStep(cfg, s, step, id);
    } else if id in Apply(cfg, s, step).jobs {
      Arrival(cfg, s, step, id);
      ViewInvInit(cfg, ViewOf(cfg, Apply(cfg, s, step), id));
    }
  }

  lemma {:induction false} LoyalRun(cfg: Config, s: State, steps: seq<Step>, id: JobId)
    requires ValidConfig(cfg) && LoyalInv(cfg, s, id) && Executable(cfg, s, steps) && Respects(cfg, s, steps, id)
    ensures LoyalInv(cfg, Exec(cfg, s, steps), id)
    decreases |steps|
  {
    if steps != [] {
      LoyalInvStep(cfg, s, steps[0], id);
      LoyalRun(cfg, Apply(cfg, s, steps[0]), steps[1..], id);
    }
  }

  /** Every acceptance after the first is matched by a crash or failed mark of a worker after an earlier one. */
  ghost predicate AckedWithin(s: State, id: JobId) {
    id in s.jobs ==> id in s.ledger && AcceptedCount(s.sends, id) <= 1 + s.ledger[id].lostAcks
  }

  lemma LoyalAcks(cfg: Config, s: State, id: JobId)
    requires LoyalInv(cfg, s, id)
    ensures AckedWithin(s, id)
  {
    if id in s.jobs {
      AckedOnce(cfg, ViewOf(cfg, s, id));
    }
  }

  lemma InitLoyal(cfg: Config, clock: Time, id: JobId)
    requires ValidConfig(cfg)
    ensures LoyalInv(cfg, Init(cfg, clock), id)
  {
    InvInit(cfg, clock);
  }

  /** As long as no stale requeue takes the job from a live holder, a second acceptance needs a lost acknowledgement. */
  lemma LostAckNeeded(cfg: Config, clock: Time, steps: seq<Step>, id: JobId)
    requires ValidConfig(cfg) && Executable(cfg, Init(cfg, clock), steps) && Respects(cfg, Init(cfg, clock), steps, id)
    ensures AckedWithin(Exec(cfg, Init(cfg, clock), steps), id)
  {
    InitLoyal(cfg, clock, id);
    LoyalRun(cfg, Init(cfg, clock), steps, id);
    LoyalAcks(cfg, Exec(cfg, Init(cfg, clock), steps), id);
  }

  // ----- Continuations seen from one job

  /** Nothing is requeued as stale, and nothing crashes. */
  predicate Orderly(steps: seq<Step>) {
    forall step :: step in steps ==> !step.RequeueStale? && !step.Crash?
  }

  /** The steps lead, without a stale requeue or a crash, to a sound state in which the job's view is v. */
  ghost predicate LeadsTo(cfg: Config, s: State, steps: seq<Step>, id: JobId, v: View) {
    && Executable(cfg, s, steps) && Orderly(steps)
    && Global(cfg, Exec(cfg, s, steps)) && id in Exec(cfg, s, steps).jobs
    && ViewOf(cfg, Exec(cfg, s, steps), id) == v
  }

  lemma LeadsStep(cfg: Config, s: State, step: Step, id: JobId)
    requires Global(cfg, s) && Enabled(cfg, s, step) && !step.RequeueStale? && !step.Crash? && id in s.jobs
    ensures ViewEnabled(cfg, ViewOf(cfg, s, id), Project(cfg, s, step, id))
    ensures LeadsTo(cfg, s, [step], id, ViewApply(cfg, ViewOf(cfg, s, id), Project(cfg, s, step, id)))
    ensures Exec(cfg, s, [step]) == Apply(cfg, s, step)
  {
    Simulates(cfg, s, step, id);
    GlobalStep(cfg, s, step);
    ExecOne(cfg, s, step);
  }

  lemma LeadsOn(cfg: Config, s: State, a: seq<Step>, b: seq<Step>, id: JobId, u: View, v: View)
    requires LeadsTo(cfg, s, a, id, u) && LeadsTo(cfg, Exec(cfg, s, a), b, id, v)
    ensures LeadsTo(cfg, s, a + b, id, v) && Exec(cfg, s, a + b) == Exec(cfg, Exec(cfg, s, a), b)
  {
    ExecAppend(cfg, s, a, b);
  }

  lemma {:induction false} OrderlyRespects(cfg: Config, s: State, steps: seq<Step>, id: JobId)
    requires Executable(cfg, s, steps) && Orderly(steps)
    ensures Respects(cfg, s, steps, id)
    decreases |steps|
  {
    if steps != [] {
      assert steps[0] in steps;
      OrderlyRespects(cfg, Apply(cfg, s, steps[0]), steps[1..], id);
    }
  }

  lemma ClaimElsewhere(cfg: Config, s: State, step: Step, id: JobId) returns (s': State)
    requires Global(cfg, s) && step.Claim? && Enabled(cfg, s, step) && id in s.jobs && id !in Taken(cfg, s, step.order)
    ensures s' == Apply(cfg, s, step) && Exec(cfg, s, [step]) == s' && LeadsTo(cfg, s, [step], id, ViewOf(cfg, s, id))
    ensures |s'.workers| == |s.workers| && s'.workers[step.w := Idle] == s.workers
    ensures !Carries(BatchOf(s'.workers[step.w]), id)
  {
    s' := Apply(cfg, s, step);
    LeadsStep(cfg, s, step, id);
    HoldsMember(cfg, s.workers, step.w, id);
    HoldsMember(cfg, s'.workers, step.w, id);
  }

  /** Worker x no longer holds the job, and nothing else about it matters to those who do. */
  ghost predicate Without(v: View, x: nat, u: View) {
    && u.clock == v.clock && u.row == v.row && u.entry == v.entry && u.accepted == v.accepted
    && (forall w :: w in v.holds && w != x ==> w in u.holds && u.holds[w] == v.holds[w])
    && (x !in v.holds ==> u == v)
  }

  lemma WithoutView(cfg: Config, v: View, x: nat)
    requires x in v.holds ==> v.holds[x].stage != Confirmed
    ensures Without(v, x, if x in v.holds then ViewApply(cfg, v, VForget(x)) else v)
  {}

  /** A worker's mark fails: it forgets its batch. */
  lemma FailMark(cfg: Config, s: State, x: nat, id: JobId) returns (step: Step, s': State, u: View)
    requires Global(cfg, s) && id in s.jobs && x < |s.workers| && !s.workers[x].Idle? && !s.workers[x].Claimed?
    requires var v := ViewOf(cfg, s, id); x in v.holds ==> v.holds[x].stage != Confirmed
    ensures Enabled(cfg, s, step) && !step.RequeueStale? && !step.Crash?
    ensures LeadsTo(cfg, s, [step], id, u) && Without(ViewOf(cfg, s, id), x, u) && s' == Exec(cfg, s, [step])
    ensures s'.workers == s.workers[x := Idle] && s'.jobs == s.jobs && s'.clock == s.clock
  {
    if s.workers[x].Acked? {
      step := StoreSent(x, s.clock, false);
    } else if Enabled(cfg, s, StoreDlq(x, s.clock, false)) {
      step := StoreDlq(x, s.clock, false);
    } else {
      step := StoreRetry(x, s.clock, 1.0, false);
    }
    s' := Forget(s, x);
    u := ViewOf(cfg, s', id);
    GlobalStep(cfg, s, step);
    ExecOne(cfg, s, step);
    SimForget(cfg, s, x, id);
    WithoutView(cfg, ViewOf(cfg, s, id), x);
  }

  /** A worker's call is refused for good. */
  lemma FailCall(cfg: Config, s: State, x: nat, id: JobId) returns (s': State, u: View)
    requires Global(cfg, s) && id in s.jobs && x < |s.workers| && s.workers[x].Claimed?
    ensures LeadsTo(cfg, s, [SendFail(x, 400, "")], id, u) && s' == Exec(cfg, s, [SendFail(x, 400, "")])
    ensures Without(ViewOf(cfg, s, id), x, u) && (x in u.holds ==> u.holds[x].stage == Denied)
    ensures s'.workers == s.workers[x := s'.workers[x]] && s'.workers[x].Refused?
    ensures s'.jobs == s.jobs && s'.clock == s.clock
  {
    s' := Apply(cfg, s, SendFail(x, 400, ""));
    u := ViewOf(cfg, s', id);
    HoldsMember(cfg, s.workers, x, id);
    LeadsStep(cfg, s, SendFail(x, 400, ""), id);
  }

  /** By a refused call and a failed mark a worker lets go of whatever it holds, but for this job's acknowledgement. */
  lemma GiveUp(cfg: Config, s: State, x: nat, id: JobId) returns (steps: seq<Step>, s': State, u: View)
    requires Global(cfg, s) && id in s.jobs && x < |s.workers|
    requires var v := ViewOf(cfg, s, id); x in v.holds ==> v.holds[x].stage != Confirmed
    ensures LeadsTo(cfg, s, steps, id, u) && Without(ViewOf(cfg, s, id), x, u) && s' == Exec(cfg, s, steps)
    ensures s'.workers == s.workers[x := Idle] && s'.jobs == s.jobs && s'.clock == s.clock
  {
    if s.workers[x].Idle? {
      steps, s', u := [], s, ViewOf(cfg, s, id);
      assert s.workers[x := Idle] == s.workers;
    } else if s.workers[x].Claimed? {
      var s1, v1 := FailCall(cfg, s, x, id);
      var step, s2, v2 := FailMark(cfg, s1, x, id);
      LeadsOn(cfg, s, [SendFail(x, 400, "")], [step], id, v1, v2);
      steps, s', u := [SendFail(x, 400, "")] + [step], s2, v2;
    } else {
      var step, s1, v1 := FailMark(cfg, s, x, id);
      steps, s', u := [step], s1, v1;
    }
  }

  /** A worker that claims a batch without the job, and loses it, leaves fewer jobs in the way. */
  lemma ClearAhead(cfg: Config, s: State, step: Step, id: JobId) returns (steps: seq<Step>)
    requires Global(cfg, s) && step.Claim? && Enabled(cfg, s, step) && id in s.jobs
    requires Taken(cfg, s, step.order) != [] && id !in Taken(cfg, s, step.order)
    ensures LeadsTo(cfg, s, steps, id, ViewOf(cfg, s, id))
    ensures var s' := Exec(cfg, s, steps);
            s'.workers == s.workers && |WaitingIds(s'.jobs)| < |WaitingIds(s.jobs)|
  {
    var v := ViewOf(cfg, s, id);
    TakenAll(cfg, s, step.now, step.order, step.reread);
    ClaimWaiting(s.jobs, Taken(cfg, s, step.order), cfg.workerId, step.now);
    HoldsMember(cfg, s.workers, step.w, id);
    var s1 := ClaimElsewhere(cfg, s, step, id);
    var tail, s2, u := GiveUp(cfg, s1, step.w, id);
    LeadsOn(cfg, s, [step], tail, id, v, u);
    steps := [step] + tail;
  }

  /** A free worker can come to claim any eligible job, whatever is queued before it. */
  lemma {:induction false} ReachClaim(cfg: Config, s: State, w: nat, id: JobId) returns (steps: seq<Step>)
    requires cfg.claimLimit >= 1 && Global(cfg, s) && w < |s.workers| && s.workers[w].Idle?
    requires id in s.jobs && Claimable(s.jobs[id], s.clock)
    ensures ViewEnabled(cfg, ViewOf(cfg, s, id), VClaim(w, s.clock))
    ensures LeadsTo(cfg, s, steps, id, ViewApply(cfg, ViewOf(cfg, s, id), VClaim(w, s.clock)))
    decreases |WaitingIds(s.jobs)|
  {
    HoldsMember(cfg, s.workers, w, id);
    var order := EligibleOrderExists(s.jobs, s.clock);
    assert id in order;
    var ids := Taken(cfg, s, order);
    var reread := RereadExists(ClaimTable(s.jobs, ids, cfg.workerId, s.clock), ids, cfg.workerId);
    var step := Claim(w, s.clock, order, reread);
    if id in ids {
      LeadsStep(cfg, s, step, id);
      steps := [step];
    } else {
      var head := ClearAhead(cfg, s, step, id);
      var v, s' := ViewOf(cfg, s, id), Exec(cfg, s, head);
      assert s'.jobs[id] == s.jobs[id] && s'.clock == s.clock;
      var tail := ReachClaim(cfg, s', w, id);
      LeadsOn(cfg, s, head, tail, id, v, ViewApply(cfg, v, VClaim(w, s.clock)));
      steps := head + tail;
    }
  }

  lemma HolderPhase(cfg: Config, s: State, w: nat, id: JobId)
    requires id in s.jobs && id in s.ledger && w in ViewOf(cfg, s, id).holds
    ensures w < |s.workers| && Carries(BatchOf(s.workers[w]), id)
    ensures var stage := ViewOf(cfg, s, id).holds[w].stage;
            && (stage == Unsent <==> s.workers[w].Claimed?)
            && (stage == Confirmed <==> s.workers[w].Acked?)
            && (stage == Denied <==> s.workers[w].Refused? || s.workers[w].HalfMarked?)
  {
    HoldsMember(cfg, s.workers, w, id);
  }

  lemma HolderSends(cfg: Config, s: State, w: nat, id: JobId)
    requires Global(cfg, s) && id in s.jobs
    requires ViewEnabled(cfg, ViewOf(cfg, s, id), VSendOk(w, ""))
    ensures LeadsTo(cfg, s, [SendOk(w, "")], id, ViewApply(cfg, ViewOf(cfg, s, id), VSendOk(w, "")))
  {
    HolderPhase(cfg, s, w, id);
    LeadsStep(cfg, s, SendOk(w, ""), id);
  }

  /** After a claim and an accepted call. */
  ghost predicate DeliveredBy(v: View, w: nat, v': View) {
    && v'.clock == v.clock && v'.accepted == v.accepted + 1 && v'.entry.lostAcks == v.entry.lostAcks
    && v'.row.status.Processing?
    && v'.holds.Keys == v.holds.Keys + {w} && v'.holds[w].stage == Confirmed
    && (forall x :: x in v.holds && x != w ==> v'.holds[x] == v.holds[x])
  }

  lemma DeliveredView(cfg: Config, v: View, w: nat, now: Time) returns (v': View)
    requires ViewEnabled(cfg, v, VClaim(w, now))
    ensures var u := ViewApply(cfg, v, VClaim(w, now));
            ViewEnabled(cfg, u, VSendOk(w, "")) && v' == ViewApply(cfg, u, VSendOk(w, ""))
    ensures DeliveredBy(v, w, v')
  {
    v' := ViewApply(cfg, ViewApply(cfg, v, VClaim(w, now)), VSendOk(w, ""));
  }

  /** A free worker delivers the job: one more acceptance, none lost. */
  lemma Deliver(cfg: Config, s: State, w: nat, id: JobId) returns (steps: seq<Step>, v': View)
    requires cfg.claimLimit >= 1 && Global(cfg, s) && w < |s.workers| && s.workers[w].Idle?
    requires id in s.jobs && Claimable(s.jobs[id], s.clock)
    ensures LeadsTo(cfg, s, steps, id, v') && DeliveredBy(ViewOf(cfg, s, id), w, v')
  {
    var head := ReachClaim(cfg, s, w, id);
    var v := ViewOf(cfg, s, id);
    v' := DeliveredView(cfg, v, w, s.clock);
    HolderSends(cfg, Exec(cfg, s, head), w, id);
    LeadsOn(cfg, s, head, [SendOk(w, "")], id, ViewApply(cfg, v, VClaim(w, s.clock)), v');
    steps := head + [SendOk(w, "")];
  }

  /** A holder whose call was accepted marks a job it was robbed of: the mark finds nothing, the job is sent again. */
  lemma SendAgain(cfg: Config, s: State, w: nat, id: JobId) returns (steps: seq<Step>, v': View)
    requires cfg.claimLimit >= 1 && Global(cfg, s) && id in s.jobs && Claimable(s.jobs[id], s.clock)
    requires var v := ViewOf(cfg, s, id); w in v.holds && v.holds[w].stage == Confirmed
    ensures LeadsTo(cfg, s, steps, id, v')
    ensures var v := ViewOf(cfg, s, id); v'.accepted == v.accepted + 1 && v'.entry.lostAcks == v.entry.lostAcks
  {
    var v, step := ViewOf(cfg, s, id), StoreSent(w, s.clock, true);
    HolderPhase(cfg, s, w, id);
    LeadsStep(cfg, s, step, id);
    var s1 := Apply(cfg, s, step);
    var tail, u := Deliver(cfg, s1, w, id);
    LeadsOn(cfg, s, [step], tail, id, ViewOf(cfg, s1, id), u);
    steps, v' := [step] + tail, u;
  }

  /** The same for a holder that has yet to send: two more acceptances. */
  lemma SendTwice(cfg: Config, s: State, w: nat, id: JobId) returns (steps: seq<Step>, v': View)
    requires cfg.claimLimit >= 1 && Global(cfg, s) && id in s.jobs && Claimable(s.jobs[id], s.clock)
    requires var v := ViewOf(cfg, s, id); w in v.holds && v.holds[w].stage == Unsent
    ensures LeadsTo(cfg, s, steps, id, v')
    ensures var v := ViewOf(cfg, s, id); v'.accepted == v.accepted + 2 && v'.entry.lostAcks == v.entry.lostAcks
  {
    var step := SendOk(w, "");
    HolderPhase(cfg, s, w, id);
    LeadsStep(cfg, s, step, id);
    var s1 := Apply(cfg, s, step);
    var tail, u := SendAgain(cfg, s1, w, id);
    LeadsOn(cfg, s, [step], tail, id, ViewOf(cfg, s1, id), u);
    steps, v' := [step] + tail, u;
  }

  lemma HolderBuries(cfg: Config, s: State, w: nat, id: JobId)
    requires Global(cfg, s) && id in s.jobs && w in ViewOf(cfg, s, id).holds
    requires Enabled(cfg, s, StoreDlq(w, s.clock, true))
    ensures var v, m := ViewOf(cfg, s, id), MarkDlq(s.workers[w].error, s.workers[w].code);
            && ViewEnabled(cfg, v, VMark(w, m, s.clock))
            && LeadsTo(cfg, s, [StoreDlq(w, s.clock, true)], id, ViewApply(cfg, v, VMark(w, m, s.clock)))
  {
    HoldsMember(cfg, s.workers, w, id);
    LeadsStep(cfg, s, StoreDlq(w, s.clock, true), id);
  }

  /** The retry mark of a refused batch: it marks the job, or leaves it to the dead-letter mark that follows. */
  lemma HolderRetries(cfg: Config, s: State, w: nat, id: JobId)
    requires Global(cfg, s) && id in s.jobs && w in ViewOf(cfg, s, id).holds
    requires Enabled(cfg, s, StoreRetry(w, s.clock, 1.0, true))
    ensures var v, m := ViewOf(cfg, s, id), RetryMark(s.workers[w], s.clock, 1.0, cfg.retryMax);
            && (CarriesEarly(cfg, s.workers[w].batch, id) ==>
                  ViewEnabled(cfg, v, VMark(w, m, s.clock))
                  && LeadsTo(cfg, s, [StoreRetry(w, s.clock, 1.0, true)], id, ViewApply(cfg, v, VMark(w, m, s.clock))))
            && (!CarriesEarly(cfg, s.workers[w].batch, id) ==>
                  LeadsTo(cfg, s, [StoreRetry(w, s.clock, 1.0, true)], id, v)
                  && Exec(cfg, s, [StoreRetry(w, s.clock, 1.0, true)]).workers[w].HalfMarked?)
  {
    var step := StoreRetry(w, s.clock, 1.0, true);
    HoldsMember(cfg, s.workers, w, id);
    LeadsStep(cfg, s, step, id);
    assert PhaseOk(cfg, s, s.workers[w]);
    RetryOrSpent(cfg, s.jobs, s.workers[w].batch, id);
  }

  /** A refused holder comes to mark the job, with a retry or as a dead letter. */
  lemma MarkRefused(cfg: Config, s: State, w: nat, id: JobId) returns (steps: seq<Step>, m: Mark)
    requires Global(cfg, s) && id in s.jobs
    requires var v := ViewOf(cfg, s, id); w in v.holds && v.holds[w].stage == Denied
    ensures !m.MarkSent? && ViewEnabled(cfg, ViewOf(cfg, s, id), VMark(w, m, s.clock))
    ensures LeadsTo(cfg, s, steps, id, ViewApply(cfg, ViewOf(cfg, s, id), VMark(w, m, s.clock)))
  {
    HolderPhase(cfg, s, w, id);
    var v, p := ViewOf(cfg, s, id), s.workers[w];
    var toDlq, toRetry := StoreDlq(w, s.clock, true), StoreRetry(w, s.clock, 1.0, true);
    if Enabled(cfg, s, toDlq) {
      HolderBuries(cfg, s, w, id);
      steps, m := [toDlq], MarkDlq(p.error, p.code);
    } else {
      HolderRetries(cfg, s, w, id);
      steps, m := [toRetry], RetryMark(p, s.clock, 1.0, cfg.retryMax);
      if !CarriesEarly(cfg, p.batch, id) {
        var s1 := Exec(cfg, s, [toRetry]);
        HolderBuries(cfg, s1, w, id);
        m := MarkDlq(s1.workers[w].error, s1.workers[w].code);
        LeadsOn(cfg, s, [toRetry], [toDlq], id, v, ViewApply(cfg, v, VMark(w, m, s.clock)));
        steps := [toRetry] + [toDlq];
      }
    }
  }

  /** A job marked for retry, or as a dead letter, is due again once its backoff has passed or it is replayed. */
  lemma DueAgain(cfg: Config, s: State, id: JobId) returns (steps: seq<Step>, v': View)
    requires Global(cfg, s) && id in s.jobs
    requires s.jobs[id].status.Dlq? || (s.jobs[id].status.Retry? && s.jobs[id].nextAttemptAt <= s.clock + MAX_BACKOFF)
    ensures LeadsTo(cfg, s, steps, id, v') && Claimable(v'.row, v'.clock)
    ensures var v := ViewOf(cfg, s, id);
            v'.holds == v.holds && v'.accepted == v.accepted && v'.entry.lostAcks == v.entry.lostAcks
  {
    var step := if s.jobs[id].status.Dlq? then Replay([id], s.clock) else Tick(MAX_BACKOFF);
    assert id in [id];
    LeadsStep(cfg, s, step, id);
    steps, v' := [step], ViewOf(cfg, Apply(cfg, s, step), id);
  }

  /** The job is out of its worker's hands although its call was accepted, and no mark was lost. */
  ghost predicate Undone(v: View, x: nat, v': View) {
    && v'.accepted == v.accepted + 1 && v'.entry.lostAcks == v.entry.lostAcks
    && x in v'.holds && v'.holds[x].stage == Confirmed
  }

  lemma UndoneView(cfg: Config, v: View, u: View, w: nat, x: nat, m: Mark, now: Time)
    requires DeliveredBy(v, x, u) && w != x && !m.MarkSent? && ViewEnabled(cfg, u, VMark(w, m, now))
    ensures var v' := ViewApply(cfg, u, VMark(w, m, now));
            && Undone(v, x, v')
            && (v'.row.status.Dlq? || (v'.row.status.Retry? && v'.row.nextAttemptAt <= v'.clock + MAX_BACKOFF))
  {}

  /** Beside a refused holder, another worker delivers the job, and the late mark undoes that. */
  lemma DeliverAndUndo(cfg: Config, s: State, w: nat, x: nat, id: JobId) returns (steps: seq<Step>, v': View)
    requires cfg.claimLimit >= 1 && Global(cfg, s) && id in s.jobs && Claimable(s.jobs[id], s.clock)
    requires x < |s.workers| && s.workers[x].Idle? && x != w
    requires var v := ViewOf(cfg, s, id); w in v.holds && v.holds[w].stage == Denied
    ensures LeadsTo(cfg, s, steps, id, v') && Undone(ViewOf(cfg, s, id), x, v')
    ensures v'.row.status.Dlq? || (v'.row.status.Retry? && v'.row.nextAttemptAt <= v'.clock + MAX_BACKOFF)
  {
    var a, u := Deliver(cfg, s, x, id);
    var s1 := Exec(cfg, s, a);
    var b, m := MarkRefused(cfg, s1, w, id);
    UndoneView(cfg, ViewOf(cfg, s, id), u, w, x, m, s1.clock);
    v' := ViewApply(cfg, u, VMark(w, m, s1.clock));
    LeadsOn(cfg, s, a, b, id, u, v');
    steps := a + b;
  }

  /** The job delivered, undone by the refused holder, and due again. */
  lemma UndoAndWait(cfg: Config, s: State, w: nat, x: nat, id: JobId) returns (steps: seq<Step>, v': View)
    requires cfg.claimLimit >= 1 && Global(cfg, s) && id in s.jobs && Claimable(s.jobs[id], s.clock)
    requires x < |s.workers| && s.workers[x].Idle? && x != w
    requires var v := ViewOf(cfg, s, id); w in v.holds && v.holds[w].stage == Denied
    ensures LeadsTo(cfg, s, steps, id, v') && Undone(ViewOf(cfg, s, id), x, v') && Claimable(v'.row, v'.clock)
  {
    var a, u := DeliverAndUndo(cfg, s, w, x, id);
    var b, u' := DueAgain(cfg, Exec(cfg, s, a), id);
    LeadsOn(cfg, s, a, b, id, u, u');
    steps, v' := a + b, u';
  }

  lemma UndoAndSend(cfg: Config, s: State, w: nat, x: nat, id: JobId) returns (steps: seq<Step>, v': View)
    requires cfg.claimLimit >= 1 && Global(cfg, s) && id in s.jobs && Claimable(s.jobs[id], s.clock)
    requires x < |s.workers| && s.workers[x].Idle? && x != w
    requires var v := ViewOf(cfg, s, id); w in v.holds && v.holds[w].stage == Denied
    ensures LeadsTo(cfg, s, steps, id, v')
    ensures var v := ViewOf(cfg, s, id); v'.accepted == v.accepted + 2 && v'.entry.lostAcks == v.entry.lostAcks
  {
    var a, u := UndoAndWait(cfg, s, w, x, id);
    var b, u' := SendAgain(cfg, Exec(cfg, s, a), x, id);
    LeadsOn(cfg, s, a, b, id, u, u');
    steps, v' := a + b, u';
  }

  /** With two workers, even a refused holder that was robbed can bring about two acceptances. */
  lemma RefusedSendsTwice(cfg: Config, s: State, w: nat, x: nat, id: JobId) returns (steps: seq<Step>, v': View)
    requires cfg.claimLimit >= 1 && Global(cfg, s) && id in s.jobs && Claimable(s.jobs[id], s.clock)
    requires x < |s.workers| && x != w
    requires var v := ViewOf(cfg, s, id);
             w in v.holds && v.holds[w].stage == Denied && (x in v.holds ==> v.holds[x].stage != Confirmed)
    ensures LeadsTo(cfg, s, steps, id, v')
    ensures var v := ViewOf(cfg, s, id); v'.accepted == v.accepted + 2 && v'.entry.lostAcks == v.entry.lostAcks
  {
    var head, s', u := GiveUp(cfg, s, x, id);
    var tail, u' := UndoAndSend(cfg, s', w, x, id);
    LeadsOn(cfg, s, head, tail, id, u, u');
    steps, v' := head + tail, u';
  }

  /** A robbed holder, in any sound state, leads to more acceptances than lost acknowledgements explain. */
  lemma RobbedDuplicates(cfg: Config, s: State, w: nat, id: JobId) returns (steps: seq<Step>)
    requires ValidConfig(cfg) && Global(cfg, s) && id in s.jobs && Claimable(s.jobs[id], s.clock)
    requires var v := ViewOf(cfg, s, id); AckFloor(v) && w in v.holds && !Harmless(cfg, v.holds[w])
    ensures Executable(cfg, s, steps) && Orderly(steps) && !AckedWithin(Exec(cfg, s, steps), id)
  {
    var v := ViewOf(cfg, s, id);
    HolderPhase(cfg, s, w, id);
    var v': View;
    if x :| x in v.holds && v.holds[x].stage == Confirmed {
      assert x in Confirmers(v);
      steps, v' := SendAgain(cfg, s, x, id);
    } else if v.holds[w].stage == Unsent {
      steps, v' := SendTwice(cfg, s, w, id);
    } else {
      steps, v' := RefusedSendsTwice(cfg, s, w, if w == 0 then 1 else 0, id);
    }
  }

  // ----- The exact condition

  /** However the run goes on, as long as later requeues respect the job, acceptances are explained. */
  ghost predicate SafeAfter(cfg: Config, s: State, id: JobId) {
    forall rest :: Executable(cfg, s, rest) && Respects(cfg, s, rest, id) ==> AckedWithin(Exec(cfg, s, rest), id)
  }

  lemma RequeueRobs(cfg: Config, s: State, now: Time, w: nat, id: JobId)
    requires Global(cfg, s) && now <= s.clock && HeldBy(s, w, id) && id in s.jobs && Stale(s.jobs[id], now, cfg.lease)
    requires AckFloor(ViewOf(cfg, s, id))
    ensures var s' := Apply(cfg, s, RequeueStale(now));
            && Global(cfg, s') && id in s'.jobs && Claimable(s'.jobs[id], s'.clock) && s'.workers == s.workers
            && AckFloor(ViewOf(cfg, s', id)) && w in ViewOf(cfg, s', id).holds
  {
    GlobalStep(cfg, s, RequeueStale(now));
    SimMaintenance(cfg, s, RequeueStale(now), id);
    HoldsMember(cfg, s.workers, w, id);
    AckFloorStep(cfg, ViewOf(cfg, s, id), VRequeue(now));
  }

  /** In every reachable state, a requeue that takes the job from a live holder can lead to unexplained acceptances. */
  lemma RequeueUnsafe(cfg: Config, clock: Time, steps: seq<Step>, now: Time, id: JobId) returns (rest: seq<Step>)
    requires ValidConfig(cfg) && Executable(cfg, Init(cfg, clock), steps)
    requires var s := Exec(cfg, Init(cfg, clock), steps); now <= s.clock && TakesLive(cfg, s, now, id)
    ensures var s' := Apply(cfg, Exec(cfg, Init(cfg, clock), steps), RequeueStale(now));
            Executable(cfg, s', rest) && Orderly(rest) && !AckedWithin(Exec(cfg, s', rest), id)
  {
    Reachable(cfg, clock, steps);
    var s := Exec(cfg, Init(cfg, clock), steps);
    var w: nat :| HeldBy(s, w, id) && !(cfg.workers == 1 && (s.workers[w].Refused? || s.workers[w].HalfMarked?));
    assert ViewInv(cfg, ViewOf(cfg, s, id));
    RequeueRobs(cfg, s, now, w, id);
    HolderPhase(cfg, Apply(cfg, s, RequeueStale(now)), w, id);
    rest := RobbedDuplicates(cfg, Apply(cfg, s, RequeueStale(now)), w, id);
  }

  /**
   In every state reached with the job's lease respected so far, a stale requeue keeps "a second acceptance needs a
   lost acknowledgement" true in all continuations that respect the lease from then on if, and only if, it does not
   take the job from a live holder.
   */
  lemma RequeueSafeIff(cfg: Config, clock: Time, steps: seq<Step>, now: Time, id: JobId)
    requires ValidConfig(cfg) && Executable(cfg, Init(cfg, clock), steps) && Respects(cfg, Init(cfg, clock), steps, id)
    requires now <= Exec(cfg, Init(cfg, clock), steps).clock
    ensures var s := Exec(cfg, Init(cfg, clock), steps);
            SafeAfter(cfg, Apply(cfg, s, RequeueStale(now)), id) <==> !TakesLive(cfg, s, now, id)
  {
    var s := Exec(cfg, Init(cfg, clock), steps);
    var s' := Apply(cfg, s, RequeueStale(now));
    if TakesLive(cfg, s, now, id) {
      var rest := RequeueUnsafe(cfg, clock, steps, now, id);
      OrderlyRespects(cfg, s', rest, id);
    } else {
      InitLoyal(cfg, clock, id);
      LoyalRun(cfg, Init(cfg, clock), steps, id);
      LoyalInvStep(cfg, s, RequeueStale(now), id);
      forall rest | Executable(cfg, s', rest) && Respects(cfg, s', rest, id)
        ensures AckedWithin(Exec(cfg, s', rest), id)
      {
        LoyalRun(cfg, s', rest, id);
        LoyalAcks(cfg, Exec(cfg, s', rest), id);
      }
    }
  }

  // ----- Disjoint batches

  ghost predicate ExclusiveInv(cfg: Config, s: State) {
    Inv(cfg, s) && forall id :: id in s.jobs ==> Exclusive(cfg, ViewOf(cfg, s, id))
  }

  lemma NotHeld(cfg: Config, s: State, id: JobId)
    requires id in s.jobs && id in s.ledger && !exists w: nat :: HeldBy(s, w, id)
    ensures ViewOf(cfg, s, id).holds == map[]
  {
    forall w: nat ensures w !in HoldsOf(cfg, s.workers, id) {
      assert !HeldBy(s, w, id);
    }
  }

  lemma ExclusiveViewStep(cfg: Config, s: State, step: Step, id: JobId)
    requires Global(cfg, s) && Enabled(cfg, s, step) && id in s.jobs
    requires ShapeInv(cfg, ViewOf(cfg, s, id)) && Exclusive(cfg, ViewOf(cfg, s, id))
    requires step.RequeueStale? && Stale(s.jobs[id], step.now, cfg.lease) ==> ViewOf(cfg, s, id).holds == map[]
    ensures id in Apply(cfg, s, step).jobs && id in Apply(cfg, s, step).ledger
    ensures Exclusive(cfg, ViewOf(cfg, Apply(cfg, s, step), id))
  {
    Simulates(cfg, s, step, id);
    ExclusiveStep(cfg, ViewOf(cfg, s, id), Project(cfg, s, step, id));
  }

  lemma KeptViewStep(cfg: Config, s: State, step: Step, id: JobId)
    requires Global(cfg, s) && Enabled(cfg, s, step) && id in s.jobs
    requires ShapeInv(cfg, ViewOf(cfg, s, id)) && Exclusive(cfg, ViewOf(cfg, s, id))
    requires step.RequeueStale? ==> !TakesHeld(cfg, s, step.now, id)
    ensures id in Apply(cfg, s, step).jobs && id in Apply(cfg, s, step).ledger
    ensures Exclusive(cfg, ViewOf(cfg, Apply(cfg, s, step), id))
  {
    if step.RequeueStale? && Stale(s.jobs[id], step.now, cfg.lease) {
      NotHeld(cfg, s, id);
    }
    ExclusiveViewStep(cfg, s, step, id);
  }

  lemma ExclusiveInvStep(cfg: Config, s: State, step: Step)
    requires ValidConfig(cfg) && ExclusiveInv(cfg, s) && Enabled(cfg, s, step)
    requires step.RequeueStale? ==> forall id :: !TakesHeld(cfg, s, step.now, id)
    ensures ExclusiveInv(cfg, Apply(cfg, s, step))
  {
    InvStep(cfg, s, step);
    var s' := Apply(cfg, s, step);
    forall id | id in s'.jobs ensures Exclusive(cfg, ViewOf(cfg, s', id)) {
      if id in s.jobs {
        assert ViewInv(cfg, ViewOf(cfg, s, id));
        KeptViewStep(cfg, s, step, id);
      } else {
        Arrival(cfg, s, step, id);
        ViewInvInit(cfg, ViewOf(cfg, s', id));
      }
    }
  }

  lemma {:induction false} ExclusiveRun(cfg: Config, s: State, steps: seq<Step>)
    requires ValidConfig(cfg) && ExclusiveInv(cfg, s) && Executable(cfg, s, steps) && KeepsHolders(cfg, s, steps)
    ensures ExclusiveInv(cfg, Exec(cfg, s, steps))
    decreases |steps|
  {
    if steps != [] {
      ExclusiveInvStep(cfg, s, steps[0]);
      ExclusiveRun(cfg, Apply(cfg, s, steps[0]), steps[1..]);
    }
  }

  /** Live batches are disjoint and each held row still shows its holder's claim. */
  ghost predicate HeldApart(s: State) {
    && (forall w: nat, id: JobId :: HeldBy(s, w, id) ==>
          id in s.jobs && s.jobs[id].status.Processing? && s.jobs[id].startedAt == Some(s.workers[w].at))
    && (forall w: nat, x: nat, id: JobId :: HeldBy(s, w, id) && HeldBy(s, x, id) ==> w == x)
  }

  lemma ExclusiveApart(cfg: Config, s: State)
    requires ExclusiveInv(cfg, s)
    ensures HeldApart(s)
  {
    forall w: nat, id: JobId | HeldBy(s, w, id)
      ensures id in s.jobs && s.jobs[id].status.Processing? && s.jobs[id].startedAt == Some(s.workers[w].at)
              && s.ledger[id].owner == w
    {
      assert PhaseOk(cfg, s, s.workers[w]);
      HoldsMember(cfg, s.workers, w, id);
      assert Exclusive(cfg, ViewOf(cfg, s, id));
    }
  }

  /**
   As long as no stale requeue takes a job from its holder, no two workers ever hold the same job, and a second
   acceptance takes a worker that crashed, or whose mark failed, after the first.
   */
  lemma ExclusiveDelivery(cfg: Config, clock: Time, steps: seq<Step>)
    requires ValidConfig(cfg) && Executable(cfg, Init(cfg, clock), steps) && KeepsHolders(cfg, Init(cfg, clock), steps)
    ensures var s := Exec(cfg, Init(cfg, clock), steps); HeldApart(s) && forall id :: AckedWithin(s, id)
  {
    InvInit(cfg, clock);
    ExclusiveRun(cfg, Init(cfg, clock), steps);
    ExclusiveApart(cfg, Exec(cfg, Init(cfg, clock), steps));
    forall id: JobId ensures AckedWithin(Exec(cfg, Init(cfg, clock), steps), id) {
      KeepsRespects(cfg, Init(cfg, clock), steps, id);
      LostAckNeeded(cfg, clock, steps, id);
    }
  }

  /** And only as long: a requeue keeps batches apart exactly if it takes no job from its holder. */
  lemma RequeueApartIff(cfg: Config, clock: Time, steps: seq<Step>, now: Time)
    requires ValidConfig(cfg) && Executable(cfg, Init(cfg, clock), steps) && KeepsHolders(cfg, Init(cfg, clock), steps)
    requires now <= Exec(cfg, Init(cfg, clock), steps).clock
    ensures var s := Exec(cfg, Init(cfg, clock), steps);
            HeldApart(Apply(cfg, s, RequeueStale(now))) <==> forall id :: !TakesHeld(cfg, s, now, id)
  {
    var s := Exec(cfg, Init(cfg, clock), steps);
    var s' := Apply(cfg, s, RequeueStale(now));
    if id :| TakesHeld(cfg, s, now, id) {
      var w: nat :| HeldBy(s, w, id);
      assert HeldBy(s', w, id) && !s'.jobs[id].status.Processing?;
    } else {
      InvInit(cfg, clock);
      ExclusiveRun(cfg, Init(cfg, clock), steps);
      ExclusiveInvStep(cfg, s, RequeueStale(now));
      ExclusiveApart(cfg, s');
    }
  }

  // ----- Timely marking is enough

  /** No worker still holds a batch past its lease. */
  ghost predicate Timely(cfg: Config, s: State) {
    forall w :: 0 <= w < |s.workers| && !s.workers[w].Idle? ==> s.clock <= s.workers[w].at + cfg.lease
  }

  ghost predicate TimelyRun(cfg: Config, s: State, steps: seq<Step>)
    requires Executable(cfg, s, steps)
    decreases |steps|
  {
    Timely(cfg, s) && (steps != [] ==> TimelyRun(cfg, Apply(cfg, s, steps[0]), steps[1..]))
  }

  lemma TimelyKeepsHeld(cfg: Config, s: State, now: Time, id: JobId)
    requires ExclusiveInv(cfg, s) && Timely(cfg, s) && now <= s.clock
    ensures !TakesHeld(cfg, s, now, id)
  {
    if id in s.jobs {
      var v := ViewOf(cfg, s, id);
      if w: nat :| HeldBy(s, w, id) {
        HoldsMember(cfg, s.workers, w, id);
        assert w in v.holds;
        assert Exclusive(cfg, v);
        TimelyKeeps(cfg, v, now);
      }
    }
  }

  /** If every worker marks or dies before its lease runs out, no stale requeue ever takes a job from its holder. */
  lemma {:induction false} TimelyKeepsHolders(cfg: Config, s: State, steps: seq<Step>)
    requires ValidConfig(cfg) && ExclusiveInv(cfg, s) && Executable(cfg, s, steps) && TimelyRun(cfg, s, steps)
    ensures KeepsHolders(cfg, s, steps)
    decreases |steps|
  {
    if steps != [] {
      if steps[0].RequeueStale? {
        forall id: JobId ensures !TakesHeld(cfg, s, steps[0].now, id) {
          TimelyKeepsHeld(cfg, s, steps[0].now, id);
        }
      }
      ExclusiveInvStep(cfg, s, steps[0]);
      TimelyKeepsHolders(cfg, Apply(cfg, s, steps[0]), steps[1..]);
    }
  }

  lemma TimelyDelivery(cfg: Config, clock: Time, steps: seq<Step>)
    requires ValidConfig(cfg) && Executable(cfg, Init(cfg, clock), steps) && TimelyRun(cfg, Init(cfg, clock), steps)
    ensures var s := Exec(cfg, Init(cfg, clock), steps); HeldApart(s) && forall id :: AckedWithin(s, id)
  {
    InvInit(cfg, clock);
    TimelyKeepsHolders(cfg, Init(cfg, clock), steps);
    ExclusiveDelivery(cfg, clock, steps);
  }
}
