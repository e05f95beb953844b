/**
 Connection accounting of the SMTP backend. Taking a token and counting the address are two separate atomic
 steps, and so are giving both back; any number of connections interleave between them.
 */
module Admission {
  import opened Prelude

  type Ip = string
  type ConnId = nat

  datatype Limits = Limits(maxConnections: nat, maxPerIp: nat)

  /** The token channel's fill level and the per-address counters. */
  datatype Counters = Counters(tokens: nat, perIp: map<Ip, nat>)

  function CountOf(perIp: map<Ip, nat>, ip: Ip): nat {
    if ip in perIp then perIp[ip] else 0
  }

  // ----- The four atomic sections

  /** Non-blocking send into the token channel. */
  function PushToken(lim: Limits, k: Counters): Option<Counters> {
    if k.tokens < lim.maxConnections then Some(k.(tokens := k.tokens + 1)) else None
  }

  /** Under the mutex: refused by the rate limiter or the per-address cap, the token is taken back out. */
  function AdmitLocked(lim: Limits, k: Counters, ip: Ip, allowed: bool): (Counters, bool)
    requires k.tokens > 0
  {
    if !allowed || CountOf(k.perIp, ip) >= lim.maxPerIp then (k.(tokens := k.tokens - 1), false)
    else (k.(perIp := k.perIp[ip := CountOf(k.perIp, ip) + 1]), true)
  }

  /** Non-blocking receive: with an empty channel the default branch does nothing. */
  function PopToken(k: Counters): Counters {
    if k.tokens > 0 then k.(tokens := k.tokens - 1) else k
  }

  /** Under the mutex: count down, or drop the entry. */
  function DropLocked(k: Counters, ip: Ip): Counters {
    if CountOf(k.perIp, ip) > 1 then k.(perIp := k.perIp[ip := k.perIp[ip] - 1])
    else k.(perIp := k.perIp - {ip})
  }

  // ----- All interleavings

  /** Where a connection is; one that was refused or has left is not listed. */
  datatype Place = Acquiring(ip: Ip) | Live(ip: Ip) | Releasing(ip: Ip)

  datatype Gate = Gate(k: Counters, conns: map<ConnId, Place>)

  datatype Step =
    | Knock(c: ConnId, ip: Ip)
    | Admit(c: ConnId, allowed: bool)
    | Leave(c: ConnId)
    | Forget(c: ConnId)

  /** Admit may block on the channel when it must give the token back: it can run only if a token is there. */
  predicate Enabled(lim: Limits, g: Gate, step: Step) {
    match step
    case Knock(c, _) => c !in g.conns
    case Admit(c, _) => c in g.conns && g.conns[c].Acquiring? && g.k.tokens > 0
    case Leave(c) => c in g.conns && g.conns[c].Live?
    case Forget(c) => c in g.conns && g.conns[c].Releasing?
  }

  function Apply(lim: Limits, g: Gate, step: Step): Gate
    requires Enabled(lim, g, step)
  {
    match step
    case Knock(c, ip) =>
      var pushed := PushToken(lim, g.k);
      if pushed.None? then g else Gate(pushed.value, g.conns[c := Acquiring(ip)])
    case Admit(c, allowed) =>
      var ip := g.conns[c].ip;
      var (k, ok) := AdmitLocked(lim, g.k, ip, allowed);
      Gate(k, if ok then g.conns[c := Live(ip)] else g.conns - {c})
    case Leave(c) => Gate(PopToken(g.k), g.conns[c := Releasing(g.conns[c].ip)])
    case Forget(c) => Gate(DropLocked(g.k, g.conns[c].ip), g.conns - {c})
  }

  datatype Kind = Entering | Open | Exiting

  function KindOf(p: Place): Kind {
    match p case Acquiring(_) => Entering case Live(_) => Open case Releasing(_) => Exiting
  }

  ghost function InKind(conns: map<ConnId, Place>, kind: Kind): set<ConnId> {
    set c | c in conns && KindOf(conns[c]) == kind
  }

  ghost function AcquiringSet(g: Gate): set<ConnId> { InKind(g.conns, Entering) }
  ghost function LiveSet(g: Gate): set<ConnId> { InKind(g.conns, Open) }
  ghost function ReleasingSet(g: Gate): set<ConnId> { InKind(g.conns, Exiting) }

  predicate CountedAt(p: Place, ip: Ip) {
    !p.Acquiring? && p.ip == ip
  }

  /** The connections an address is counted for. */
  ghost function CountedSet(conns: map<ConnId, Place>, ip: Ip): set<ConnId> {
    set c | c in conns && CountedAt(conns[c], ip)
  }

  /** Two sets that agree except perhaps on c. */
  lemma CardSwap(s: set<ConnId>, t: set<ConnId>, c: ConnId)
    requires s - {c} == t - {c}
    ensures |t| == |s| - Bit(c in s) + Bit(c in t)
  {
    assert |s| == |s - {c}| + Bit(c in s);
    assert |t| == |t - {c}| + Bit(c in t);
  }

  lemma KindMoved(conns: map<ConnId, Place>, c: ConnId, p: Place, kind: Kind)
    ensures |InKind(conns[c := p], kind)|
         == |InKind(conns, kind)| - Bit(c in conns && KindOf(conns[c]) == kind) + Bit(KindOf(p) == kind)
  {
    CardSwap(InKind(conns, kind), InKind(conns[c := p], kind), c);
  }

  lemma KindGone(conns: map<ConnId, Place>, c: ConnId, kind: Kind)
    ensures |InKind(conns - {c}, kind)| == |InKind(conns, kind)| - Bit(c in conns && KindOf(conns[c]) == kind)
  {
    assert InKind(conns - {c}, kind) == InKind(conns, kind) - {c};
  }

  lemma CountedMoved(conns: map<ConnId, Place>, c: ConnId, p: Place, ip: Ip)
    ensures |CountedSet(conns[c := p], ip)|
         == |CountedSet(conns, ip)| - Bit(c in conns && CountedAt(conns[c], ip)) + Bit(CountedAt(p, ip))
  {
    CardSwap(CountedSet(conns, ip), CountedSet(conns[c := p], ip), c);
  }

  lemma CountedGone(conns: map<ConnId, Place>, c: ConnId, ip: Ip)
    ensures |CountedSet(conns - {c}, ip)| == |CountedSet(conns, ip)| - Bit(c in conns && CountedAt(conns[c], ip))
  {
    assert CountedSet(conns - {c}, ip) == CountedSet(conns, ip) - {c};
  }

  ghost predicate TokenInv(lim: Limits, g: Gate) {
    g.k.tokens == |AcquiringSet(g)| + |LiveSet(g)| && g.k.tokens <= lim.maxConnections
  }

  ghost predicate AddressInv(lim: Limits, g: Gate) {
    forall ip :: CountOf(g.k.perIp, ip) == |CountedSet(g.conns, ip)| && CountOf(g.k.perIp, ip) <= lim.maxPerIp
  }

  ghost predicate SumInv(g: Gate) {
    && g.k.tokens + |ReleasingSet(g)| == Total(g.k.perIp) + |AcquiringSet(g)|
    && (forall ip :: ip in g.k.perIp ==> g.k.perIp[ip] > 0)
  }

  lemma KindStep(lim: Limits, g: Gate, step: Step, kind: Kind)
    requires Enabled(lim, g, step)
    ensures var g' := Apply(lim, g, step);
            (|InKind(g'.conns, kind)| == |InKind(g.conns, kind)|
             - Bit(step.c in g.conns && KindOf(g.conns[step.c]) == kind)
                + Bit(step.c in g'.conns && KindOf(g'.conns[step.c]) == kind))
  {
    var g' := Apply(lim, g, step);
    if step.c in g'.conns {
      KindMoved(g.conns, step.c, g'.conns[step.c], kind);
    } else {
      KindGone(g.conns, step.c, kind);
      assert g.conns - {step.c} == g'.conns;
    }
  }

  lemma CountedStep(lim: Limits, g: Gate, step: Step, ip: Ip)
    requires Enabled(lim, g, step)
    ensures var g' := Apply(lim, g, step);
            (|CountedSet(g'.conns, ip)| == |CountedSet(g.conns, ip)|
             - Bit(step.c in g.conns && CountedAt(g.conns[step.c], ip))
                + Bit(step.c in g'.conns && CountedAt(g'.conns[step.c], ip)))
  {
    var g' := Apply(lim, g, step);
    if step.c in g'.conns {
      CountedMoved(g.conns, step.c, g'.conns[step.c], ip);
    } else {
      CountedGone(g.conns, step.c, ip);
      assert g.conns - {step.c} == g'.conns;
    }
  }

  lemma TokenStep(lim: Limits, g: Gate, step: Step)
    requires TokenInv(lim, g) && Enabled(lim, g, step)
    ensures TokenInv(lim, Apply(lim, g, step))
  {
    KindStep(lim, g, step, Entering);
    KindStep(lim, g, step, Open);
    if step.Leave? {
      assert step.c in LiveSet(g);
    }
  }

  lemma AddressStep(lim: Limits, g: Gate, step: Step)
    requires AddressInv(lim, g) && Enabled(lim, g, step)
    ensures AddressInv(lim, Apply(lim, g, step))
  {
    var g' := Apply(lim, g, step);
    forall ip ensures CountOf(g'.k.perIp, ip) == |CountedSet(g'.conns, ip)| && CountOf(g'.k.perIp, ip) <= lim.maxPerIp {
      CountedStep(lim, g, step, ip);
      if step.Forget? && g.conns[step.c].ip == ip {
        assert step.c in CountedSet(g.conns, ip);
      }
    }
  }

  lemma SumStep(lim: Limits, g: Gate, step: Step)
    requires TokenInv(lim, g) && AddressInv(lim, g) && SumInv(g) && Enabled(lim, g, step)
    ensures SumInv(Apply(lim, g, step))
  {
    KindStep(lim, g, step, Entering);
    KindStep(lim, g, step, Exiting);
    match step
    case Knock(_, _) =>
    case Admit(c, allowed) =>
      TotalUpdate(g.k.perIp, g.conns[c].ip, CountOf(g.k.perIp, g.conns[c].ip) + 1);
    case Leave(c) =>
      assert c in LiveSet(g);
    case Forget(c) =>
      var ip := g.conns[c].ip;
      assert c in CountedSet(g.conns, ip) && CountOf(g.k.perIp, ip) > 0;
      TotalSplit(g.k.perIp, ip);
      TotalUpdate(g.k.perIp, ip, g.k.perIp[ip] - 1);
  }

  ghost predicate GateInv(lim: Limits, g: Gate) {
    TokenInv(lim, g) && AddressInv(lim, g) && SumInv(g)
  }

  const Empty := Gate(Counters(0, map[]), map[])

  ghost predicate Executable(lim: Limits, g: Gate, steps: seq<Step>)
    decreases |steps|
  {
    steps == [] || (Enabled(lim, g, steps[0]) && Executable(lim, Apply(lim, g, steps[0]), steps[1..]))
  }

  ghost function Exec(lim: Limits, g: Gate, steps: seq<Step>): Gate
    requires Executable(lim, g, steps)
    decreases |steps|
  {
    if steps == [] then g else Exec(lim, Apply(lim, g, steps[0]), steps[1..])
  }

  lemma EmptyInv(lim: Limits)
    ensures GateInv(lim, Empty)
  {
    assert AcquiringSet(Empty) == {} && LiveSet(Empty) == {} && ReleasingSet(Empty) == {};
    forall ip ensures |CountedSet(Empty.conns, ip)| == 0 {
      assert CountedSet(Empty.conns, ip) == {};
    }
  }

  lemma {:induction false} GateRun(lim: Limits, g: Gate, steps: seq<Step>)
    requires GateInv(lim, g) && Executable(lim, g, steps)
    ensures GateInv(lim, Exec(lim, g, steps))
    decreases |steps|
  {
    if steps != [] {
      TokenStep(lim, g, steps[0]);
      AddressStep(lim, g, steps[0]);
      SumStep(lim, g, steps[0]);
      GateRun(lim, Apply(lim, g, steps[0]), steps[1..]);
    }
  }

  /** The accounting law: tokens are the counted connections, plus acquires in progress, minus releases in progress. */
  lemma TokensBalance(lim: Limits, steps: seq<Step>)
    requires Executable(lim, Empty, steps)
    ensures var g := Exec(lim, Empty, steps);
            && g.k.tokens == Total(g.k.perIp) + |AcquiringSet(g)| - |ReleasingSet(g)|
            && (forall ip :: CountOf(g.k.perIp, ip) == |CountedSet(g.conns, ip)|)
  {
    EmptyInv(lim);
    GateRun(lim, Empty, steps);
  }

  ghost function LiveFrom(g: Gate, ip: Ip): set<ConnId> {
    set c | c in g.conns && g.conns[c] == Live(ip)
  }

  /** Neither the global cap nor the per-address cap is ever exceeded by live sessions. */
  lemma CapsHold(lim: Limits, steps: seq<Step>, ip: Ip)
    requires Executable(lim, Empty, steps)
    ensures var g := Exec(lim, Empty, steps);
            && |LiveSet(g)| <= lim.maxConnections
            && |LiveFrom(g, ip)| <= lim.maxPerIp
  {
    EmptyInv(lim);
    GateRun(lim, Empty, steps);
    var g := Exec(lim, Empty, steps);
    assert LiveFrom(g, ip) <= CountedSet(g.conns, ip);
    SubsetSize(LiveFrom(g, ip), CountedSet(g.conns, ip));
  }

  /** The receive under the mutex never blocks, and release never takes its default branch. */
  lemma NeverBlocks(lim: Limits, steps: seq<Step>, c: ConnId)
    requires Executable(lim, Empty, steps) && c in Exec(lim, Empty, steps).conns
    ensures var g := Exec(lim, Empty, steps);
            && (g.conns[c].Acquiring? ==> forall allowed :: Enabled(lim, g, Admit(c, allowed)))
            && (g.conns[c].Live? ==> g.k.tokens > 0)
            && (g.conns[c].Releasing? ==> CountOf(g.k.perIp, g.conns[c].ip) > 0)
  {
    EmptyInv(lim);
    GateRun(lim, Empty, steps);
    var g := Exec(lim, Empty, steps);
    if g.conns[c].Acquiring? {
      assert c in AcquiringSet(g);
    } else if g.conns[c].Live? {
      assert c in LiveSet(g);
    } else {
      assert c in CountedSet(g.conns, g.conns[c].ip);
    }
  }

  /** Undisturbed, a release undoes the acquire before it. */
  lemma ReleaseUndoesAcquire(lim: Limits, k: Counters, ip: Ip)
    requires forall x :: x in k.perIp ==> k.perIp[x] > 0
    requires PushToken(lim, k).Some? && AdmitLocked(lim, PushToken(lim, k).value, ip, true).1
    ensures DropLocked(PopToken(AdmitLocked(lim, PushToken(lim, k).value, ip, true).0), ip) == k
  {
    var after := DropLocked(PopToken(AdmitLocked(lim, PushToken(lim, k).value, ip, true).0), ip);
    assert after.perIp == k.perIp;
  }

  /**
   A knock is let through exactly while a token is free, and the connection then goes live exactly if the rate limiter
   allows it and its address is counted for fewer than the cap, live or about to leave.
   */
  lemma AdmitsIff(lim: Limits, steps: seq<Step>, c: ConnId, ip: Ip, allowed: bool)
    requires Executable(lim, Empty, steps)
    ensures var g := Exec(lim, Empty, steps);
            c !in g.conns ==> (c in Apply(lim, g, Knock(c, ip)).conns <==> g.k.tokens < lim.maxConnections)
    ensures var g := Exec(lim, Empty, steps);
            c in g.conns && g.conns[c].Acquiring? ==>
              && Enabled(lim, g, Admit(c, allowed))
              && (c in Apply(lim, g, Admit(c, allowed)).conns <==>
                    allowed && |CountedSet(g.conns, g.conns[c].ip)| < lim.maxPerIp)
  {
    EmptyInv(lim);
    GateRun(lim, Empty, steps);
    var g := Exec(lim, Empty, steps);
    if c in g.conns && g.conns[c].Acquiring? {
      NeverBlocks(lim, steps, c);
    }
  }

  // ----- The object

  class Backend {
    const lim: Limits
    var connTokens: nat
    var perIPConn: map<Ip, nat>

    ghost function Count(): Counters
      reads this
    {
      Counters(connTokens, perIPConn)
    }

    constructor (lim: Limits)
      ensures this.lim == lim && Count() == Empty.k
    {
      this.lim := lim;
      connTokens := 0;
      perIPConn := map[];
    }

    method Acquire(ip: Ip, allowed: bool) returns (ok: bool)
      modifies this
      ensures PushToken(lim, old(Count())).None? ==> !ok && Count() == old(Count())
      ensures PushToken(lim, old(Count())).Some? ==>
                (Count(), ok) == AdmitLocked(lim, PushToken(lim, old(Count())).value, ip, allowed)
      ensures ok <==> old(connTokens) < lim.maxConnections && allowed
                      && (ip in old(perIPConn) ==> old(perIPConn)[ip] < lim.maxPerIp)
                      && (ip !in old(perIPConn) ==> 0 < lim.maxPerIp)
      ensures ok ==> connTokens == old(connTokens) + 1
                     && perIPConn == old(perIPConn)[ip := if ip in old(perIPConn) then old(perIPConn)[ip] + 1 else 1]
      ensures !ok ==> connTokens == old(connTokens) && perIPConn == old(perIPConn)
    {
      if connTokens >= lim.maxConnections {
        return false;
      }
      connTokens := connTokens + 1;
      if !allowed {
        connTokens := connTokens - 1;
        return false;
      }
      var cur := CountOf(perIPConn, ip);
      if cur >= lim.maxPerIp {
        connTokens := connTokens - 1;
        return false;
      }
      perIPConn := perIPConn[ip := cur + 1];
      return true;
    }

    method Release(ip: Ip)
      modifies this
      ensures Count() == DropLocked(PopToken(old(Count())), ip)
      ensures connTokens == if old(connTokens) == 0 then 0 else old(connTokens) - 1
      ensures perIPConn == if ip in old(perIPConn) && old(perIPConn)[ip] > 1
                                 then old(perIPConn)[ip := old(perIPConn)[ip] - 1]
                           else old(perIPConn) - {ip}
    {
      if connTokens > 0 {
        connTokens := connTokens - 1;
      }
      var n := CountOf(perIPConn, ip);
      if n > 1 {
        perIPConn := perIPConn[ip := n - 1];
      } else {
        perIPConn := perIPConn - {ip};
      }
    }
  }
}
