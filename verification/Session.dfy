/**
 The SMTP session: what it takes for a message to enter the queue. The session's state is given by a step
 function over commands; the object's methods follow it.
 */
module Session {
  import opened Prelude
  import opened JobTable
  import opened Mime
  import opened Store
  import Admission

  /** Address parsing is the mail library's; domains are already lower-case and trimmed. */
  datatype Policy = Policy(
    requireTls: bool,
    username: string,
    password: string,
    allowedDomains: set<string>,
    maxMessageBytes: nat,
    parse: string -> Option<Address>)

  datatype Progress = Progress(tls: bool, authed: bool, envelopeFrom: string, recipients: seq<string>)

  datatype Reply = Done | AuthRequired | Refuse(code: int)

  datatype Command =
    | StartTls
    | Auth(credentialsMatch: bool)
    | MailFrom(from: string)
    | RcptTo(to: string)
    | DataDone
    | Rset

  function AfterLastAt(s: string): string {
    if s == "" then "" else if s[|s| - 1] == '@' then "" else AfterLastAt(s[..|s| - 1]) + [s[|s| - 1]]
  }

  function SenderDomain(email: string): string {
    if '@' in email then ToLower(TrimSpace(AfterLastAt(email))) else ""
  }

  /** The domain is what follows the last at-sign, and nothing where there is none. */
  lemma {:induction false} DomainAfterLastAt(local: string, domain: string)
    requires '@' !in domain
    ensures SenderDomain(local + "@" + domain) == ToLower(TrimSpace(domain))
    ensures SenderDomain(domain) == ""
    decreases |domain|
  {
    LastAtSplit(local, domain);
    assert (local + "@" + domain)[|local|] == '@';
  }

  lemma {:induction false} LastAtSplit(local: string, domain: string)
    requires '@' !in domain
    ensures AfterLastAt(local + "@" + domain) == domain
    decreases |domain|
  {
    var email := local + "@" + domain;
    if domain != "" {
      var front := domain[..|domain| - 1];
      assert email[..|email| - 1] == local + "@" + front;
      assert email[|email| - 1] == domain[|domain| - 1] && domain[|domain| - 1] in domain;
      LastAtSplit(local, front);
      assert domain == front + [domain[|domain| - 1]];
    }
  }

  function MailReply(pol: Policy, st: Progress, from: string): Reply {
    if pol.requireTls && !st.tls then Refuse(530)
    else if !st.authed then Refuse(530)
    else if pol.parse(from).None? then Refuse(550)
    else if SenderDomain(pol.parse(from).value.email) !in pol.allowedDomains then Refuse(550)
    else Done
  }

  function RcptReply(pol: Policy, st: Progress, to: string): Reply {
    if !st.authed then AuthRequired
    else if st.envelopeFrom == "" then Refuse(503)
    else if pol.parse(to).None? then Refuse(550)
    else Done
  }

  /** Rejected commands, and data, leave the session as it was. */
  function After(pol: Policy, st: Progress, cmd: Command): Progress {
    match cmd
    case StartTls => st.(tls := true)
    case Auth(ok) => if ok then st.(authed := true) else st
    case MailFrom(from) =>
      if MailReply(pol, st, from) != Done then st
      else st.(envelopeFrom := pol.parse(from).value.email, recipients := [])
    case RcptTo(to) =>
      if RcptReply(pol, st, to) == Done then st.(recipients := st.recipients + [pol.parse(to).value.email]) else st
    case DataDone => st
    case Rset => st.(envelopeFrom := "", recipients := [])
  }

  function Play(pol: Policy, st: Progress, cmds: seq<Command>): Progress {
    if cmds == [] then st else After(pol, Play(pol, st, cmds[..|cmds| - 1]), cmds[|cmds| - 1])
  }

  const Start := Progress(false, false, "", [])

  /** A sender on file was authenticated, from an allowed domain, under TLS if required; recipients need a sender. */
  predicate Lawful(pol: Policy, st: Progress) {
    && (st.envelopeFrom != "" ==>
          st.authed && SenderDomain(st.envelopeFrom) in pol.allowedDomains && (pol.requireTls ==> st.tls))
    && (st.recipients != [] ==> st.envelopeFrom != "")
  }

  /** In every session, after every command sequence, accepted or not. */
  lemma {:induction false} AlwaysLawful(pol: Policy, cmds: seq<Command>)
    ensures Lawful(pol, Play(pol, Start, cmds))
  {
    if cmds != [] {
      AlwaysLawful(pol, cmds[..|cmds| - 1]);
    }
  }

  /** The addresses of all parsable RCPT commands, in order. */
  function ParsedRcpts(pol: Policy, cmds: seq<Command>): seq<string> {
    if cmds == [] then []
    else
      var front, last := ParsedRcpts(pol, cmds[..|cmds| - 1]), cmds[|cmds| - 1];
      if last.RcptTo? && pol.parse(last.to).Some? then front + [pol.parse(last.to).value.email] else front
  }

  /** Commands that cannot start a new transaction: no reset, and no MAIL that would pass. */
  predicate SameTransaction(pol: Policy, cmds: seq<Command>) {
    forall cmd :: cmd in cmds ==>
      !cmd.Rset?
      && (cmd.MailFrom? ==>
            pol.parse(cmd.from).None? || SenderDomain(pol.parse(cmd.from).value.email) !in pol.allowedDomains)
  }

  /** After a successful MAIL the envelope is that sender and exactly the parsable recipients named since, in order. */
  lemma {:induction false} RecipientsSinceMail(pol: Policy, st: Progress, from: string, cmds: seq<Command>)
    requires Lawful(pol, st) && MailReply(pol, st, from) == Done && pol.parse(from).value.email != ""
    requires SameTransaction(pol, cmds)
    ensures var end := Play(pol, After(pol, st, MailFrom(from)), cmds);
            && end.authed
            && end.envelopeFrom == pol.parse(from).value.email
            && end.recipients == ParsedRcpts(pol, cmds)
  {
    if cmds != [] {
      RecipientsSinceMail(pol, st, from, cmds[..|cmds| - 1]);
      assert cmds[|cmds| - 1] in cmds;
    }
  }

  /** No MAIL among these commands is answered with success. */
  predicate NoMailPasses(pol: Policy, st: Progress, cmds: seq<Command>) {
    forall i :: 0 <= i < |cmds| && cmds[i].MailFrom? ==> MailReply(pol, Play(pol, st, cmds[..i]), cmds[i].from) != Done
  }

  /** What a session that has no sender on file is told. */
  ghost predicate NothingOnFile(pol: Policy, st: Progress) {
    && st.envelopeFrom == "" && st.recipients == []
    && (forall to :: RcptReply(pol, st, to) == if st.authed then Refuse(503) else AuthRequired)
    && (forall up, queued :: DataReply(pol, st, up, queued) == if st.authed then Refuse(503) else AuthRequired)
  }

  /**
   RSET abandons the transaction: until a MAIL passes again there is no sender and no recipient, and RCPT and DATA are
   refused, whatever was on file before. TLS and authentication are not lost.
   */
  lemma {:induction false} ResetAbandons(pol: Policy, st: Progress, cmds: seq<Command>)
    requires NoMailPasses(pol, After(pol, st, Rset), cmds)
    ensures var end := Play(pol, After(pol, st, Rset), cmds);
            NothingOnFile(pol, end) && (st.authed ==> end.authed) && (st.tls ==> end.tls)
  {
    if cmds != [] {
      var front := cmds[..|cmds| - 1];
      forall i | 0 <= i < |front| ensures front[..i] == cmds[..i] && front[i] == cmds[i] {}
      ResetAbandons(pol, st, front);
    }
  }

  // ----- From DATA to the queue

  /** The body as read, up to one byte over the limit, and whether reading went well. */
  datatype Upload = Upload(readOk: bool, length: nat, raw: Raw)

  function Outgoing(mails: seq<Mail>, marshal: Mail -> string): (ms: seq<Message>)
    ensures |ms| == |mails|
  {
    seq(|mails|, i requires 0 <= i < |mails| => Message([mails[i].to.email], marshal(mails[i])))
  }

  predicate DataAcceptable(pol: Policy, st: Progress, up: Upload) {
    && st.authed && st.envelopeFrom != "" && st.recipients != []
    && up.readOk && up.length <= pol.maxMessageBytes
    && Transformable(pol.parse, st.envelopeFrom, st.recipients, up.raw)
  }

  /** What DATA is answered, given whether the enqueue went through. */
  function DataReply(pol: Policy, st: Progress, up: Upload, queued: bool): (reply: Reply)
    ensures reply == Done <==> DataAcceptable(pol, st, up) && queued
  {
    if !st.authed then AuthRequired
    else if st.envelopeFrom == "" || st.recipients == [] then Refuse(503)
    else if !up.readOk then Refuse(451)
    else if up.length > pol.maxMessageBytes then Refuse(552)
    else if !Transformable(pol.parse, st.envelopeFrom, st.recipients, up.raw) then Refuse(554)
    else if !queued then Refuse(451)
    else Done
  }

  /** The message Transform makes for recipient i. */
  ghost function MailAt(pol: Policy, st: Progress, raw: Raw, i: nat): Mail
    requires Transformable(pol.parse, st.envelopeFrom, st.recipients, raw) && i < |st.recipients|
  {
    ParsesIffSound(raw.body);
    var envelope, header, content := pol.parse(st.envelopeFrom).value, raw.headerFrom, Fold(raw.body).value;
    Mail(if header.Some? && ToLower(header.value.email) == ToLower(envelope.email) then header.value else envelope,
         pol.parse(st.recipients[i]).value, raw.subject, content.text, content.html, content.attachments)
  }

  /** Row i of the commit is the queued message for recipient i. */
  ghost predicate QueuedFor(pol: Policy, st: Progress, raw: Raw, marshal: Mail -> string, t: Table,
                            ids: seq<JobId>, now: Time)
    requires Transformable(pol.parse, st.envelopeFrom, st.recipients, raw)
  {
    && |ids| == |st.recipients| && Distinct(ids)
    && forall i :: 0 <= i < |ids| ==>
         && ids[i] in t && t[ids[i]].status.Queued? && t[ids[i]].attempts == 0 && t[ids[i]].createdAt == now
         && t[ids[i]].payload == marshal(MailAt(pol, st, raw, i))
         && t[ids[i]].recipient == ToLower(TrimSpace(pol.parse(st.recipients[i]).value.email))
         && t[ids[i]].envelopeFrom == ToLower(TrimSpace(st.envelopeFrom))
  }

  /** Message i is the one made for recipient i. */
  ghost predicate AddressedTo(pol: Policy, st: Progress, raw: Raw, marshal: Mail -> string, msgs: seq<Message>)
    requires Transformable(pol.parse, st.envelopeFrom, st.recipients, raw)
  {
    && |msgs| == |st.recipients|
    && forall i :: 0 <= i < |msgs| ==>
         msgs[i] == Message([pol.parse(st.recipients[i]).value.email], marshal(MailAt(pol, st, raw, i)))
  }

  /** The commit adds the rows Data promises and touches no other. */
  ghost predicate Committed(pol: Policy, st: Progress, raw: Raw, marshal: Mail -> string, t: Table, t': Table,
                            ids: seq<JobId>, now: Time)
    requires Transformable(pol.parse, st.envelopeFrom, st.recipients, raw)
  {
    && QueuedFor(pol, st, raw, marshal, t', ids, now)
    && |t'| == |t| + |st.recipients|
    && (forall id :: id in t ==> id in t' && t'[id] == t[id])
  }

  lemma CommitQueues(pol: Policy, st: Progress, raw: Raw, marshal: Mail -> string, t: Table,
                     msgs: seq<Message>, ids: seq<JobId>, now: Time)
    requires Transformable(pol.parse, st.envelopeFrom, st.recipients, raw)
    requires AddressedTo(pol, st, raw, marshal, msgs) && Enqueueable(t, msgs, ids)
    ensures Committed(pol, st, raw, marshal, t, EnqueueTable(t, st.envelopeFrom, msgs, ids, now), ids, now)
  {
    EnqueuedRows(t, st.envelopeFrom, msgs, ids, now);
  }

  /** Row i is the queued message for recipient i of the list. */
  ghost predicate RowsFor(pol: Policy, from: string, recipients: seq<string>, t: Table, ids: seq<JobId>) {
    && |ids| == |recipients| && Distinct(ids)
    && forall i :: 0 <= i < |ids| ==>
         && ids[i] in t && t[ids[i]].status.Queued? && t[ids[i]].envelopeFrom == ToLower(TrimSpace(from))
         && pol.parse(recipients[i]).Some?
         && t[ids[i]].recipient == ToLower(TrimSpace(pol.parse(recipients[i]).value.email))
  }

  /**
   A whole transaction: after a MAIL that passes and any commands that do not start another one, a DATA that is
   accepted commits one row per parsable RCPT named since, in order, from that sender, and no other row.
   */
  lemma TransactionQueues(pol: Policy, st: Progress, from: string, cmds: seq<Command>, up: Upload, queued: bool,
                          marshal: Mail -> string, t: Table, t': Table, ids: seq<JobId>, now: Time)
    requires Lawful(pol, st) && MailReply(pol, st, from) == Done && pol.parse(from).value.email != ""
    requires SameTransaction(pol, cmds)
    requires var end := Play(pol, After(pol, st, MailFrom(from)), cmds);
             DataReply(pol, end, up, queued) == Done && Committed(pol, end, up.raw, marshal, t, t', ids, now)
    ensures ParsedRcpts(pol, cmds) != []
    ensures RowsFor(pol, pol.parse(from).value.email, ParsedRcpts(pol, cmds), t', ids)
    ensures |t'| == |t| + |ParsedRcpts(pol, cmds)| && forall id :: id in t ==> id in t' && t'[id] == t[id]
  {
    RecipientsSinceMail(pol, st, from, cmds);
  }

  class SmtpSession {
    const pol: Policy
    const backend: Admission.Backend
    const ip: string
    var tls: bool
    var authed: bool
    var envelopeFrom: string
    var recipients: seq<string>
    var releasedToken: bool

    ghost function State(): Progress
      reads this
    {
      Progress(tls, authed, envelopeFrom, recipients)
    }

    constructor (pol: Policy, backend: Admission.Backend, ip: string)
      ensures State() == Start && !releasedToken && this.pol == pol && this.backend == backend && this.ip == ip
    {
      this.pol := pol;
      this.backend := backend;
      this.ip := ip;
      tls, authed, envelopeFrom, recipients, releasedToken := false, false, "", [], false;
    }

    /** The connection switches to TLS under the session. */
    method UpgradeToTls()
      modifies this
      ensures State() == After(pol, old(State()), StartTls) && releasedToken == old(releasedToken)
      ensures State() == old(State()).(tls := true)
    {
      tls := true;
    }

    /** AUTH PLAIN. */
    method Authenticate(username: string, password: string) returns (ok: bool)
      modifies this
      ensures ok <==> username == pol.username && password == pol.password
      ensures State() == After(pol, old(State()), Auth(ok)) && releasedToken == old(releasedToken)
      ensures State() == old(State()).(authed := ok || old(authed))
    {
      if username != pol.username || password != pol.password {
        return false;
      }
      authed := true;
      ok := true;
    }

    method Mail(from: string) returns (reply: Reply)
      modifies this
      ensures reply == MailReply(pol, old(State()), from)
      ensures State() == After(pol, old(State()), MailFrom(from)) && releasedToken == old(releasedToken)
      ensures reply == Done <==>
                && (pol.requireTls ==> tls) && authed && pol.parse(from).Some?
                && SenderDomain(pol.parse(from).value.email) in pol.allowedDomains
      ensures (pol.requireTls && !tls) || !authed ==> reply == Refuse(530)
      ensures reply in {Done, Refuse(530)} || reply == Refuse(550)
      ensures (pol.requireTls ==> tls) && authed ==> reply in {Done, Refuse(550)}
      ensures State() == if reply == Done
                               then old(State()).(envelopeFrom := pol.parse(from).value.email, recipients := [])
                         else old(State())
    {
      if pol.requireTls && !tls {
        return Refuse(530);
      }
      if !authed {
        return Refuse(530);
      }
      var addr := pol.parse(from);
      if addr.None? {
        return Refuse(550);
      }
      var domain := SenderDomain(addr.value.email);
      if domain !in pol.allowedDomains {
        return Refuse(550);
      }
      envelopeFrom := addr.value.email;
      recipients := [];
      reply := Done;
    }

    method Rcpt(to: string) returns (reply: Reply)
      modifies this
      ensures reply == RcptReply(pol, old(State()), to)
      ensures State() == After(pol, old(State()), RcptTo(to)) && releasedToken == old(releasedToken)
      ensures !authed ==> reply == AuthRequired
      ensures authed && envelopeFrom == "" ==> reply == Refuse(503)
      ensures authed && envelopeFrom != "" ==> reply == if pol.parse(to).Some? then Done else Refuse(550)
      ensures State() == if reply == Done
                               then old(State()).(recipients := old(recipients) + [pol.parse(to).value.email])
                         else old(State())
    {
      if !authed {
        return AuthRequired;
      }
      if envelopeFrom == "" {
        return Refuse(503);
      }
      var addr := pol.parse(to);
      if addr.None? {
        return Refuse(550);
      }
      recipients := recipients + [addr.value.email];
      reply := Done;
    }

    /**
     Success is exactly one commit that adds one queued row per recipient, in order; any failure adds none.
     */
    method Data(store: SQLiteStore, up: Upload, marshal: Mail -> string, ids: seq<JobId>, now: Time, commits: bool)
      returns (reply: Reply)
      requires |ids| == |recipients|
      modifies store`jobs
      ensures reply == DataReply(pol, State(), up, commits && NewIds(old(store.jobs), ids))
      ensures !authed ==> reply == AuthRequired
      ensures authed && (envelopeFrom == "" || recipients == []) ==> reply == Refuse(503)
      ensures authed && envelopeFrom != "" && recipients != [] ==>
                && (!up.readOk ==> reply == Refuse(451))
                && (up.readOk && up.length > pol.maxMessageBytes ==> reply == Refuse(552))
                && (up.readOk && up.length <= pol.maxMessageBytes ==>
                      if !Transformable(pol.parse, envelopeFrom, recipients, up.raw) then reply == Refuse(554)
                      else reply == if commits && NewIds(old(store.jobs), ids) then Done else Refuse(451))
      ensures reply != Done ==> store.jobs == old(store.jobs)
      ensures reply == Done ==> Committed(pol, State(), up.raw, marshal, old(store.jobs), store.jobs, ids, now)
    {
      if !authed {
        return AuthRequired;
      }
      if envelopeFrom == "" || |recipients| == 0 {
        return Refuse(503);
      }
      if !up.readOk {
        return Refuse(451);
      }
      if up.length > pol.maxMessageBytes {
        return Refuse(552);
      }
      var mails := Transform(pol.parse, envelopeFrom, recipients, up.raw);
      if mails.Err? {
        return Refuse(554);
      }
      var messages := Outgoing(mails.value, marshal);
      assert AddressedTo(pol, State(), up.raw, marshal, messages);
      var queued := store.EnqueueTx(envelopeFrom, messages, ids, now, commits);
      if queued.Err? {
        return Refuse(451);
      }
      CommitQueues(pol, State(), up.raw, marshal, old(store.jobs), messages, ids, now);
      reply := Done;
    }

    method Reset()
      modifies this
      ensures State() == After(pol, old(State()), Rset) && releasedToken == old(releasedToken)
      ensures envelopeFrom == "" && recipients == [] && authed == old(authed) && tls == old(tls)
    {
      envelopeFrom := "";
      recipients := [];
    }

    /** However often it is called, a session gives its connection back once. */
    method Logout()
      modifies this`releasedToken, backend
      ensures releasedToken && State() == old(State())
      ensures backend.connTokens == if old(releasedToken) || old(backend.connTokens) == 0 then old(backend.connTokens)
                                    else old(backend.connTokens) - 1
      ensures backend.Count() == if old(releasedToken) then old(backend.Count())
                                 else Admission.DropLocked(Admission.PopToken(old(backend.Count())), ip)
    {
      if !releasedToken {
        backend.Release(ip);
        releasedToken := true;
      }
    }
  }
}
