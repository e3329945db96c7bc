/** What every reachable state of the protocol satisfies, and the proof that every move keeps it. */
module ProtocolInvariant {
  import opened Wrappers
  import opened Engine
  import opened Registry
  import opened Timestamps
  import opened ApprovalStore
  import opened AuditStore
  import opened Protocol
  import opened ProtocolMoves

  // ---- the shared state ------------------------------------------------------

  ghost predicate StoredResolved(s: State, id: string) { id in s.rows && s.rows[id].status.IsResolved() }

  ghost predicate RowsOk(s: State) { forall id | id in s.rows :: s.rows[id].id == id }

  /** An event belongs to a stored row; once set, that row is resolved. So is the row of a pending notice. */
  ghost predicate EventsOk(s: State) {
    && (forall id | id in s.events ::
          s.events[id] < |s.owners| && s.owners[s.events[id]] == id && id in s.rows)
    && (forall e | e in s.fired :: e < |s.owners| && StoredResolved(s, s.owners[e]))
    && (forall id | id in s.notices ::
          id in s.named && (id in s.rows || id !in s.issued) && (id in s.rows ==> StoredResolved(s, id)))
  }

  /** The approval on which a handler's call went to its upstream. */
  function SentOn(x: Handler): Option<Row> { if x.sent == [] then None else x.sent[0].approval }

  /** The one event a call must leave that was answered so. */
  function EventFor(cfg: Config, x: Handler, reply: Reply): AuditEvent {
    match reply
    case NoSuchTool => UnknownToolEvent(cfg, x.call)
    case Refused(outcome, approval) => EventOf(cfg, x, x.decision, outcome, Some(ResultError), approval)
    case Returned(isError) =>
      EventOf(cfg, x, x.decision, Forwarded, Some(if isError then ResultError else ResultOk), SentOn(x))
    case InputRequired(request) => EventOf(cfg, x, x.decision, AwaitingApproval, None, Some(request))
    case _ =>
      var unsent := x.decision.(action := Deny, reason := Some("upstream unavailable"), ruleIndex := None);
      EventOf(cfg, x, if x.sent == [] then unsent else x.decision, Error, Some(ResultError), SentOn(x))
  }

  /** The event is the one the client's answer calls for. */
  ghost predicate Tells(cfg: Config, x: Handler, event: AuditEvent, reply: Reply) {
    event == EventFor(cfg, x, reply) && (event.outcome == Forwarded <==> reply.Returned?)
  }

  /** Every event written by this process has one author, who wrote nothing else and is answered accordingly. */
  ghost predicate TrailOk(cfg: Config, s: State) {
    && (forall e | e in s.author ::
          && e in s.trail && s.author[e] in s.handlers
          && var x := s.handlers[s.author[e]];
             x.wrote == [e] && x.pc.Done? && Tells(cfg, x, s.trail[e], x.pc.reply))
    && (forall h | h in s.handlers :: forall e <- s.handlers[h].wrote :: e in s.author && s.author[e] == h)
  }

  // ---- one handler ------------------------------------------------------------------

  /** What a handler read earlier is still the stored request; and the stored decision, if it read one. */
  ghost predicate Reading(s: State, id: string, found: Option<Row>) {
    found.Some? ==>
      && id in s.rows && SameRequest(found.value, s.rows[id])
      && (found.value.status.IsResolved() ==> found.value == s.rows[id])
  }

  /** The id was drawn by this handler. */
  ghost predicate DrawnBy(s: State, h: nat, id: string) { id in s.issued && s.issued[id] == h }

  /** The row asks for this handler's call. */
  ghost predicate OwnRequest(cfg: Config, s: State, x: Handler, row: Row) {
    && x.call.retry.None? && x.entry.Some? && x.decision.action == RequireApproval
    && row.tool == x.call.tool && row.arguments == x.call.arguments && row.upstream == x.entry.value.upstream
    && row.createdAt <= s.clock && row.expiresAt == row.createdAt + cfg.timeout
  }

  /** The row is the one this handler's call was parked in. */
  ghost predicate OwnRow(cfg: Config, s: State, h: nat, x: Handler, id: string) {
    id in s.rows && DrawnBy(s, h, id) && OwnRequest(cfg, s, x, s.rows[id])
  }

  /** Between polls: the wait has begun `rounds` sleeps, and every finished one lasted a whole interval. */
  ghost predicate NapOk(cfg: Config, s: State, h: nat, x: Handler, nap: Nap) {
    && OwnRow(cfg, s, h, x, nap.id) && nap.deadline == s.rows[nap.id].expiresAt
    && nap.event < |s.owners| && s.owners[nap.event] == nap.id
    && 1 <= nap.rounds && (nap.rounds - 1) * POLL < cfg.timeout
    && nap.wakeAt <= nap.deadline && nap.wakeAt <= s.clock + POLL
    && (nap.wakeAt == nap.deadline || nap.wakeAt >= s.rows[nap.id].createdAt + nap.rounds * POLL)
  }

  /** The call is held open when it needs approval: its client is not handed a link. */
  predicate Held(cfg: Config, x: Handler) { !UseElicitation(cfg.mode, x.call.supportsUrl) }

  /** A resolved row a handler may act on: the one its retry names, or the one its own call was parked in. */
  ghost predicate Linked(cfg: Config, s: State, h: nat, x: Handler, row: Row) {
    || x.call.retry == Some(row.id)
    || (x.call.retry.None? && DrawnBy(s, h, row.id) && x.decision.action == RequireApproval
        && row.tool == x.call.tool && row.arguments == x.call.arguments
        && x.entry.Some? && row.upstream == x.entry.value.upstream && Held(cfg, x))
  }

  ghost predicate StandingRow(cfg: Config, s: State, h: nat, x: Handler, row: Row) {
    StoredResolved(s, row.id) && s.rows[row.id] == row && Linked(cfg, s, h, x, row)
  }

  /** The licence to forward: policy allowed this very call, or a row approved it. */
  ghost predicate Licensed(cfg: Config, s: State, h: nat, x: Handler, approval: Option<Row>) {
    match approval
    case None => x.call.retry.None? && x.decision.action == Allow
    case Some(row) => row.status.Approved? && StandingRow(cfg, s, h, x, row)
  }

  ghost predicate SentOk(cfg: Config, s: State, h: nat, x: Handler, sent: Sent) {
    && x.entry.Some? && sent.upstream == x.entry.value.upstream && sent.tool == x.entry.value.remoteName
    && sent.arguments == x.call.arguments && sent.upstream in cfg.connections && Licensed(cfg, s, h, x, sent.approval)
  }

  /** The refusal a settled row that grants nothing calls for. */
  ghost predicate RefusedOn(x: Handler, row: Row, outcome: Outcome) {
    match outcome
    case DismissedByClient => x.call.retry.Some? && (row.status.Denied? || row.status.Expired?)
    case TimedOut => row.status.Expired?
    case DeniedByApprover => row.status.Denied?
    case _ => false
  }

  /** The answer a client is about to get, or got, is right. */
  ghost predicate ReplyOk(cfg: Config, s: State, h: nat, x: Handler, reply: Reply) {
    match reply
    case NoSuchTool => x.entry.None?
    case NotOnFile => x.entry.Some? && x.call.retry.Some?
    case Vanished => true
    case Refused(outcome, None) =>
      outcome == DeniedByPolicy && x.call.retry.None? && x.decision.action == Deny
    case Refused(outcome, Some(row)) => StandingRow(cfg, s, h, x, row) && RefusedOn(x, row, outcome)
    case Unavailable =>
      x.sent == [] ==>
        && x.entry.Some? && x.entry.value.upstream !in cfg.connections
        && exists approval :: Licensed(cfg, s, h, x, approval)
    case Returned(_) => true
    case InputRequired(request) =>
      && x.call.retry.None? && x.decision.action == RequireApproval && !Held(cfg, x) && request.status.Pending?
      && DrawnBy(s, h, request.id) && request.id in s.rows && SameRequest(request, s.rows[request.id])
  }

  /** Parking a call. */
  ghost predicate OpeningOk(cfg: Config, s: State, h: nat, x: Handler) {
    match x.pc
    case Begin => x.entry.None?
    case Creating(row) =>
      && row.id !in s.rows && DrawnBy(s, h, row.id) && row.id !in s.notices
      && row.status.Pending? && OwnRequest(cfg, s, x, row)
    case Created(row) => OwnRow(cfg, s, h, x, row.id) && row.status.Pending? && SameRequest(row, s.rows[row.id])
    case _ => true
  }

  /** Waiting for a decision, up to the deadline. */
  ghost predicate WaitingOk(cfg: Config, s: State, h: nat, x: Handler) {
    match x.pc
    case WaitReading(id) => OwnRow(cfg, s, h, x, id)
    case WaitRead(id, found) => OwnRow(cfg, s, h, x, id) && found.Some? && Reading(s, id, found)
    case Testing(id, wake, deadline, rounds) =>
      && OwnRow(cfg, s, h, x, id) && deadline == s.rows[id].expiresAt
      && wake < |s.owners| && s.owners[wake] == id
      && (rounds > 0 ==> (rounds - 1) * POLL < cfg.timeout)
      && (s.clock < deadline ==> s.clock >= s.rows[id].createdAt + rounds * POLL)
    case Sleeping(nap) => NapOk(cfg, s, h, x, nap)
    case Polling(nap) => NapOk(cfg, s, h, x, nap) && (StoredResolved(s, nap.id) || nap.wakeAt <= s.clock)
    case Polled(nap, found) =>
      && NapOk(cfg, s, h, x, nap) && found.Some? && Reading(s, nap.id, found)
      && (found.value.status.IsResolved() || nap.wakeAt <= s.clock)
    case _ => true
  }

  /** Settling a wait whose deadline passed. */
  ghost predicate TimingOutOk(cfg: Config, s: State, h: nat, x: Handler) {
    match x.pc
    case AutoApproving(id, at) => OwnRow(cfg, s, h, x, id) && s.rows[id].expiresAt <= at && cfg.approveOnTimeout
    case TimeoutSweeping(id, moment) =>
      OwnRow(cfg, s, h, x, id) && s.rows[id].expiresAt <= moment && !cfg.approveOnTimeout
    case TimeoutReading(id) => OwnRow(cfg, s, h, x, id) && StoredResolved(s, id)
    case _ => true
  }

  /** Resuming a retried call. */
  ghost predicate RetryOk(s: State, x: Handler) {
    match x.pc
    case ResumeReading(id) => x.call.retry == Some(id)
    case ResumeRead(id, found) => x.call.retry == Some(id) && Reading(s, id, found)
    case ResumeSweeping(id, moment) => x.call.retry == Some(id) && id in s.rows && s.rows[id].expiresAt <= moment
    case ResumeRereading(id) => x.call.retry == Some(id) && StoredResolved(s, id)
    case Resuming(id, found) => x.call.retry == Some(id) && Reading(s, id, found)
    case Dismissing(id, seen, _) =>
      x.call.retry == Some(id) && seen.status.Pending? && id in s.rows && SameRequest(seen, s.rows[id])
    case Dismissed(id, _, found) => x.call.retry == Some(id) && StoredResolved(s, id) && found == Some(s.rows[id])
    case _ => true
  }

  /** Acting on a settled row, or on an allowed call; and answering. */
  ghost predicate ActingOk(cfg: Config, s: State, h: nat, x: Handler) {
    match x.pc
    case Applying(found, dismissal) =>
      found.Some? && StandingRow(cfg, s, h, x, found.value) && (dismissal ==> x.call.retry.Some?)
    case Forwarding(approval) => Licensed(cfg, s, h, x, approval)
    case Calling(approval) => Licensed(cfg, s, h, x, approval)
    case Recording(_, reply) => ReplyOk(cfg, s, h, x, reply)
    case Done(reply) => ReplyOk(cfg, s, h, x, reply)
    case _ => true
  }

  ghost predicate PcOk(cfg: Config, s: State, h: nat, x: Handler) {
    && OpeningOk(cfg, s, h, x) && WaitingOk(cfg, s, h, x) && TimingOutOk(cfg, s, h, x) && RetryOk(s, x)
    && ActingOk(cfg, s, h, x) && (InWait(x.pc) || InTimeout(x.pc) ==> Held(cfg, x))
  }

  /** How far a handler's history has come. */
  ghost predicate HistoryOk(cfg: Config, x: Handler) {
    match x.pc
    case Calling(approval) => |x.sent| == 1 && x.sent[0].approval == approval && !x.returned && x.wrote == []
    case Recording(event, reply) =>
      && x.wrote == [] && |x.sent| <= 1 && (x.returned ==> |x.sent| == 1)
      && (x.returned <==> reply.Returned?) && !reply.NotOnFile? && !reply.Vanished?
      && (x.sent != [] ==> reply.Returned? || reply.Unavailable?)
      && Tells(cfg, x, event, reply)
    case Done(reply) =>
      && |x.wrote| == (if cfg.auditOn && !reply.NotOnFile? then 1 else 0)
      && |x.sent| <= 1 && (x.returned ==> |x.sent| == 1) && (x.returned <==> reply.Returned?)
      && (x.sent != [] ==> reply.Returned? || reply.Unavailable?) && !reply.Vanished?
    case _ => x.sent == [] && !x.returned && x.wrote == []
  }

  /** Before its tool is looked up, or after it was found to be nobody's. */
  predicate TurnedAway(pc: Pc) {
    pc.Begin? || (pc.Recording? && pc.reply.NoSuchTool?) || (pc.Done? && pc.reply.NoSuchTool?)
  }

  /** The decision is the engine's, on the registry entry the call was given when it arrived. */
  ghost predicate DecisionOk(cfg: Config, x: Handler) {
    && (x.entry.Some? ==> x.decision == cfg.decide(RequestOf(x.call, x.entry.value)))
    && (x.entry.None? ==> x.decision == UNREGISTERED && TurnedAway(x.pc))
  }

  ghost predicate HandlerOk(cfg: Config, s: State, h: nat, x: Handler) {
    (&& DecisionOk(cfg, x) && HistoryOk(cfg, x) && PcOk(cfg, s, h, x)
     && forall sent <- x.sent :: SentOk(cfg, s, h, x, sent)) == true
  }

  ghost predicate HandlerAt(cfg: Config, s: State, h: nat) { h in s.handlers ==> HandlerOk(cfg, s, h, s.handlers[h]) }

  ghost predicate HandlersOk(cfg: Config, s: State) { forall h: nat :: HandlerAt(cfg, s, h) }

  ghost predicate Inv(cfg: Config, s: State) {
    RowsOk(s) && EventsOk(s) && TrailOk(cfg, s) && HandlersOk(cfg, s)
  }

  // ---- what moves may change -----------------------------------------------------------

  /** What a move of handler `h`, or of the environment, leaves every other handler. */
  ghost predicate Grows(s: State, s': State, h: nat) {
    && s.clock <= s'.clock
    && Evolves(s.rows, s'.rows)
    && (forall id | id in s'.rows && id !in s.rows :: id in s.issued && s.issued[id] == h)
    && s.owners <= s'.owners
    && DrawnStay(s, s')
    && (forall id | id in s'.notices && id !in s.notices :: id in s.rows || id !in s.issued)
  }

  lemma ReadingKept(s: State, s': State, id: string, found: Option<Row>)
    requires Evolves(s.rows, s'.rows) && Reading(s, id, found)
    ensures Reading(s', id, found)
  {
  }

  /** Ids keep the handlers that drew them. */
  ghost predicate DrawnStay(s: State, s': State) {
    forall id | id in s.issued :: id in s'.issued && s'.issued[id] == s.issued[id]
  }

  lemma OwnRowKept(cfg: Config, s: State, s': State, h: nat, x: Handler, id: string)
    requires s.clock <= s'.clock && Evolves(s.rows, s'.rows) && DrawnStay(s, s') && OwnRow(cfg, s, h, x, id)
    ensures OwnRow(cfg, s', h, x, id) && s'.rows[id].expiresAt == s.rows[id].expiresAt
    ensures s'.rows[id].createdAt == s.rows[id].createdAt && SameRequest(s.rows[id], s'.rows[id])
    ensures StoredResolved(s, id) ==> StoredResolved(s', id)
  {
  }

  lemma StandingKept(cfg: Config, s: State, s': State, h: nat, x: Handler, row: Row)
    requires Evolves(s.rows, s'.rows) && DrawnStay(s, s') && StandingRow(cfg, s, h, x, row)
    ensures StandingRow(cfg, s', h, x, row)
  {
  }

  lemma LicensedKept(cfg: Config, s: State, s': State, h: nat, x: Handler, approval: Option<Row>)
    requires Evolves(s.rows, s'.rows) && DrawnStay(s, s') && Licensed(cfg, s, h, x, approval)
    ensures Licensed(cfg, s', h, x, approval)
  {
    if approval.Some? { StandingKept(cfg, s, s', h, x, approval.value); }
  }

  lemma ReplyKept(cfg: Config, s: State, s': State, h: nat, x: Handler, reply: Reply)
    requires Evolves(s.rows, s'.rows) && DrawnStay(s, s') && ReplyOk(cfg, s, h, x, reply)
    ensures ReplyOk(cfg, s', h, x, reply)
  {
    if reply.Refused? && reply.approval.Some? { StandingKept(cfg, s, s', h, x, reply.approval.value); }
    if reply.Unavailable? && x.sent == [] {
      var approval :| Licensed(cfg, s, h, x, approval);
      LicensedKept(cfg, s, s', h, x, approval);
    }
  }

  lemma OpeningKept(cfg: Config, s: State, s': State, h: nat, g: nat, x: Handler)
    requires Grows(s, s', h) && g != h && OpeningOk(cfg, s, g, x)
    ensures OpeningOk(cfg, s', g, x)
  {
    if x.pc.Created? { OwnRowKept(cfg, s, s', g, x, x.pc.row.id); }
  }

  lemma WaitingKept(cfg: Config, s: State, s': State, h: nat, g: nat, x: Handler)
    requires Grows(s, s', h) && WaitingOk(cfg, s, g, x)
    ensures WaitingOk(cfg, s', g, x)
  {
    if x.pc.WaitRead? { ReadingKept(s, s', x.pc.id, x.pc.found); }
    if x.pc.Polled? { ReadingKept(s, s', x.pc.nap.id, x.pc.found); }
    if x.pc.Sleeping? || x.pc.Polling? || x.pc.Polled? { OwnRowKept(cfg, s, s', g, x, x.pc.nap.id); }
    if x.pc.WaitReading? || x.pc.WaitRead? || x.pc.Testing? { OwnRowKept(cfg, s, s', g, x, x.pc.id); }
  }

  lemma TimingOutKept(cfg: Config, s: State, s': State, h: nat, g: nat, x: Handler)
    requires Grows(s, s', h) && TimingOutOk(cfg, s, g, x)
    ensures TimingOutOk(cfg, s', g, x)
  {
    if InTimeout(x.pc) { OwnRowKept(cfg, s, s', g, x, x.pc.id); }
  }

  lemma RetryKept(s: State, s': State, h: nat, x: Handler)
    requires Grows(s, s', h) && RetryOk(s, x)
    ensures RetryOk(s', x)
  {
  }

  lemma ActingKept(cfg: Config, s: State, s': State, h: nat, g: nat, x: Handler)
    requires Grows(s, s', h) && ActingOk(cfg, s, g, x)
    ensures ActingOk(cfg, s', g, x)
  {
    match x.pc
    case Applying(found, _) => StandingKept(cfg, s, s', g, x, found.value);
    case Forwarding(approval) => LicensedKept(cfg, s, s', g, x, approval);
    case Calling(approval) => LicensedKept(cfg, s, s', g, x, approval);
    case Recording(_, reply) => ReplyKept(cfg, s, s', g, x, reply);
    case Done(reply) => ReplyKept(cfg, s, s', g, x, reply);
    case _ =>
  }

  lemma OthersKept(cfg: Config, s: State, s': State, h: nat, g: nat, x: Handler)
    requires Grows(s, s', h) && g != h
    requires HandlerOk(cfg, s, g, x)
    ensures HandlerOk(cfg, s', g, x)
  {
    OpeningKept(cfg, s, s', h, g, x);
    WaitingKept(cfg, s, s', h, g, x);
    TimingOutKept(cfg, s, s', h, g, x);
    RetryKept(s, s', h, x);
    ActingKept(cfg, s, s', h, g, x);
    forall sent <- x.sent ensures SentOk(cfg, s', g, x, sent) { LicensedKept(cfg, s, s', g, x, sent.approval); }
  }

  /** What a move of handler `h` may rely on. */
  ghost predicate Ready(cfg: Config, s: State, h: nat) {
    h in s.handlers && RowsOk(s) && EventsOk(s) && HandlerOk(cfg, s, h, s.handlers[h])
  }

  /** What it must establish, beside the order of the trail. */
  ghost predicate StepOk(cfg: Config, s: State, s': State, h: nat) {
    && h in s.handlers && h in s'.handlers && s'.handlers == s.handlers[h := s'.handlers[h]]
    && Grows(s, s', h) && RowsOk(s') && EventsOk(s')
    && HandlerOk(cfg, s', h, s'.handlers[h])
  }

  /** The move writes nothing to the trail. */
  ghost predicate Quiet(s: State, s': State, h: nat) {
    && h in s.handlers && h in s'.handlers && s'.handlers == s.handlers[h := s'.handlers[h]]
    && s'.trail == s.trail && s'.author == s.author
    && s.handlers[h].wrote == [] == s'.handlers[h].wrote
  }

  lemma QuietKeepsTrail(cfg: Config, s: State, s': State, h: nat)
    requires TrailOk(cfg, s) && Quiet(s, s', h)
    ensures TrailOk(cfg, s')
  {
  }

  lemma StepKeepsHandlers(cfg: Config, s: State, s': State, h: nat)
    requires HandlersOk(cfg, s) && StepOk(cfg, s, s', h)
    ensures HandlersOk(cfg, s')
  {
    forall g: nat ensures HandlerAt(cfg, s', g) {
      assert HandlerAt(cfg, s, g);
      if g != h && g in s.handlers { OthersKept(cfg, s, s', h, g, s.handlers[g]); }
    }
  }

  /** A move in two parts: the shared state, then the handler. */
  lemma StepByParts(cfg: Config, s: State, s1: State, h: nat, x: Handler)
    requires h in s.handlers && s1.handlers == s.handlers
    requires Grows(s, s1, h) && RowsOk(s1) && EventsOk(s1) && HandlerOk(cfg, s1, h, x)
    ensures StepOk(cfg, s, Put(s1, h, x), h)
    ensures s1.trail == s.trail && s1.author == s.author && s.handlers[h].wrote == [] == x.wrote ==>
              Quiet(s, Put(s1, h, x), h)
  {
    PutKeepsShared(s, s1, h, x);
    OthersKept(cfg, s1, Put(s1, h, x), h + 1, h, x);
  }

  lemma PutKeepsShared(s: State, s1: State, h: nat, x: Handler)
    requires Grows(s, s1, h) && RowsOk(s1) && EventsOk(s1)
    ensures Grows(s, Put(s1, h, x), h) && RowsOk(Put(s1, h, x)) && EventsOk(Put(s1, h, x))
    ensures Grows(s1, Put(s1, h, x), h + 1)
  {
  }

  lemma OnlyHandler(cfg: Config, s: State, h: nat, x: Handler)
    requires h in s.handlers && RowsOk(s) && EventsOk(s)
    requires HandlerOk(cfg, s, h, x) && s.handlers[h].wrote == [] == x.wrote
    ensures StepOk(cfg, s, Put(s, h, x), h) && Quiet(s, Put(s, h, x), h)
  {
    StepByParts(cfg, s, s, h, x);
  }

  /** A handler that has sent and written nothing. */
  ghost predicate Unspent(cfg: Config, x: Handler) {
    DecisionOk(cfg, x) && x.entry.Some? && x.sent == [] && !x.returned && x.wrote == []
  }

  /** Such a handler is right wherever its place is, short of sending or answering. */
  lemma UnspentOk(cfg: Config, s: State, h: nat, x: Handler, pc: Pc)
    requires Unspent(cfg, x) && PcOk(cfg, s, h, x.(pc := pc))
    requires !pc.Calling? && !pc.Recording? && !pc.Done?
    ensures HandlerOk(cfg, s, h, x.(pc := pc)) && x.(pc := pc).wrote == []
  {
  }

  /** The calls already sent stay licensed when the handler moves on. */
  lemma SentKept(cfg: Config, s: State, h: nat, x: Handler, x': Handler)
    requires x'.call == x.call && x'.entry == x.entry && x'.decision == x.decision && x'.sent == x.sent
    requires forall sent <- x.sent :: SentOk(cfg, s, h, x, sent)
    ensures forall sent <- x'.sent :: SentOk(cfg, s, h, x', sent)
  {
    forall sent <- x'.sent ensures SentOk(cfg, s, h, x', sent) { assert SentOk(cfg, s, h, x, sent); }
  }

  /** What a handler is licensed to do, and may answer, is a matter of its call, its decision and what it sent. */
  ghost predicate SameCall(x: Handler, x': Handler) {
    x'.call == x.call && x'.entry == x.entry && x'.decision == x.decision && x'.sent == x.sent
  }

  lemma LicenseCarries(cfg: Config, s: State, h: nat, x: Handler, x': Handler, approval: Option<Row>)
    requires SameCall(x, x') && Licensed(cfg, s, h, x, approval)
    ensures Licensed(cfg, s, h, x', approval)
  {
  }

  lemma ReplyCarries(cfg: Config, s: State, h: nat, x: Handler, x': Handler, reply: Reply)
    requires SameCall(x, x') && ReplyOk(cfg, s, h, x, reply)
    ensures ReplyOk(cfg, s, h, x', reply)
  {
    if reply.Unavailable? && x.sent == [] {
      var approval :| Licensed(cfg, s, h, x, approval);
      LicenseCarries(cfg, s, h, x, x', approval);
    }
  }

  // ---- moves that only change the handler -------------------------------------------------

  lemma UnregisteredOk(cfg: Config, s: State, h: nat)
    requires Ready(cfg, s, h) && s.handlers[h].pc.Begin? && s.handlers[h].call.tool !in s.registry
    ensures var x := s.handlers[h];
            var s' := Goto(s, h, x, Recording(UnknownToolEvent(cfg, x.call), NoSuchTool));
            StepOk(cfg, s, s', h) && Quiet(s, s', h)
  {
    var x := s.handlers[h];
    OnlyHandler(cfg, s, h, x.(pc := Recording(UnknownToolEvent(cfg, x.call), NoSuchTool)));
  }

  lemma ParkOk(cfg: Config, s: State, h: nat, entry: NamespacedTool, id: string)
    requires Ready(cfg, s, h) && s.handlers[h].pc.Begin? && s.handlers[h].call.retry.None?
    requires cfg.decide(RequestOf(s.handlers[h].call, entry)).action == RequireApproval
    requires Fresh(s, id) && s.clock + cfg.timeout < DAYS * DAY
    ensures var x := Admitted(cfg, s.handlers[h], entry);
            var s' := Goto(s.(issued := s.issued[id := h]), h, x,
                           Creating(NewRow(cfg, x, entry, x.decision, id, s.clock)));
            StepOk(cfg, s, s', h) && Quiet(s, s', h)
  {
    var x := Admitted(cfg, s.handlers[h], entry);
    var s1 := s.(issued := s.issued[id := h]);
    assert Grows(s, s1, h) && EventsOk(s1);
    StepByParts(cfg, s, s1, h, x.(pc := Creating(NewRow(cfg, x, entry, x.decision, id, s.clock))));
  }

  lemma DirectlyOk(cfg: Config, s: State, h: nat, entry: NamespacedTool)
    requires Ready(cfg, s, h) && s.handlers[h].pc.Begin?
    requires var x := Admitted(cfg, s.handlers[h], entry); x.call.retry.Some? || x.decision.action != RequireApproval
    ensures var x := Admitted(cfg, s.handlers[h], entry);
            var s' := Goto(s, h, x, Directly(cfg, x));
            StepOk(cfg, s, s', h) && Quiet(s, s', h)
  {
    var x := Admitted(cfg, s.handlers[h], entry);
    OnlyHandler(cfg, s, h, x.(pc := Directly(cfg, x)));
  }

  lemma StartOk(cfg: Config, s: State, h: nat, choice: Choice)
    requires Ready(cfg, s, h) && CanRun(cfg, s, h, choice) && s.handlers[h].pc.Begin?
    ensures var s' := Start(cfg, s, h, choice); StepOk(cfg, s, s', h) && Quiet(s, s', h)
  {
    var x := s.handlers[h];
    if x.call.tool !in s.registry {
      UnregisteredOk(cfg, s, h);
    } else if NeedsApproval(cfg, s, x.call) {
      ParkOk(cfg, s, h, s.registry[x.call.tool], choice.id);
    } else {
      DirectlyOk(cfg, s, h, s.registry[x.call.tool]);
    }
  }

  /** `get` after its read. */
  lemma CheckedOk(cfg: Config, s: State, h: nat, id: string, found: Option<Row>)
    requires Ready(cfg, s, h) && s.handlers[h].pc == ResumeRead(id, found)
    ensures var s' := Goto(s, h, s.handlers[h], Checked(id, found, s.clock)); StepOk(cfg, s, s', h) && Quiet(s, s', h)
  {
    OnlyHandler(cfg, s, h, s.handlers[h].(pc := Checked(id, found, s.clock)));
  }

  /** `_resume` after `get`. */
  lemma FoundOk(cfg: Config, s: State, h: nat, id: string, found: Option<Row>)
    requires Ready(cfg, s, h) && s.handlers[h].pc == Resuming(id, found)
    ensures var s' := Goto(s, h, s.handlers[h], Found(id, found, s.clock)); StepOk(cfg, s, s', h) && Quiet(s, s', h)
  {
    OnlyHandler(cfg, s, h, s.handlers[h].(pc := Found(id, found, s.clock)));
  }

  lemma AppliedOk(cfg: Config, s: State, h: nat, found: Option<Row>, dismissal: bool)
    requires Ready(cfg, s, h) && s.handlers[h].pc == Applying(found, dismissal)
    ensures var s' := Goto(s, h, s.handlers[h], Applied(cfg, s.handlers[h], found, dismissal));
            StepOk(cfg, s, s', h) && Quiet(s, s', h)
  {
    OnlyHandler(cfg, s, h, s.handlers[h].(pc := Applied(cfg, s.handlers[h], found, dismissal)));
  }

  lemma UnconnectedOk(cfg: Config, s: State, h: nat, approval: Option<Row>)
    requires Ready(cfg, s, h) && s.handlers[h].pc == Forwarding(approval) && s.handlers[h].entry.Some?
    requires s.handlers[h].entry.value.upstream !in cfg.connections
    ensures var s' := Goto(s, h, s.handlers[h], Unconnected(cfg, s.handlers[h]));
            StepOk(cfg, s, s', h) && Quiet(s, s', h)
  {
    LicenseCarries(cfg, s, h, s.handlers[h], s.handlers[h].(pc := Unconnected(cfg, s.handlers[h])), approval);
    OnlyHandler(cfg, s, h, s.handlers[h].(pc := Unconnected(cfg, s.handlers[h])));
  }

  lemma ForwardOk(cfg: Config, s: State, h: nat, approval: Option<Row>)
    requires Ready(cfg, s, h) && s.handlers[h].pc == Forwarding(approval)
    ensures var s' := Forward(cfg, s, h, s.handlers[h], approval); StepOk(cfg, s, s', h) && Quiet(s, s', h)
  {
    var x := s.handlers[h];
    if x.entry.value.upstream !in cfg.connections {
      UnconnectedOk(cfg, s, h, approval);
    } else {
      OnlyHandler(cfg, s, h, Sending(x, x.entry.value, approval));
    }
  }

  /** A handler whose call has ended, about to record what the client will be told. */
  lemma ReceiverOk(cfg: Config, s: State, h: nat, x': Handler)
    requires Ready(cfg, s, h) && s.handlers[h].pc.Calling? && x'.pc.Recording?
    requires x' == s.handlers[h].(returned := x'.returned, pc := x'.pc)
    requires (x'.returned <==> x'.pc.reply.Returned?) && (x'.pc.reply.Returned? || x'.pc.reply.Unavailable?)
    requires Tells(cfg, x', x'.pc.event, x'.pc.reply)
    ensures HandlerOk(cfg, s, h, x')
  {
    SentKept(cfg, s, h, s.handlers[h], x');
  }

  lemma RaisedOk(cfg: Config, s: State, h: nat, approval: Option<Row>)
    requires Ready(cfg, s, h) && s.handlers[h].pc == Calling(approval)
    ensures var s' := Put(s, h, Received(cfg, s.handlers[h], approval, None)); StepOk(cfg, s, s', h) && Quiet(s, s', h)
  {
    ReceiverOk(cfg, s, h, Received(cfg, s.handlers[h], approval, None));
    OnlyHandler(cfg, s, h, Received(cfg, s.handlers[h], approval, None));
  }

  lemma ReturnedOk(cfg: Config, s: State, h: nat, approval: Option<Row>, isError: bool)
    requires Ready(cfg, s, h) && s.handlers[h].pc == Calling(approval)
    ensures var s' := Put(s, h, Received(cfg, s.handlers[h], approval, Some(isError)));
            StepOk(cfg, s, s', h) && Quiet(s, s', h)
  {
    ReceiverOk(cfg, s, h, Received(cfg, s.handlers[h], approval, Some(isError)));
    OnlyHandler(cfg, s, h, Received(cfg, s.handlers[h], approval, Some(isError)));
  }

  lemma ReceivedOk(cfg: Config, s: State, h: nat, approval: Option<Row>, response: Option<bool>)
    requires Ready(cfg, s, h) && s.handlers[h].pc == Calling(approval)
    ensures var s' := Put(s, h, Received(cfg, s.handlers[h], approval, response));
            StepOk(cfg, s, s', h) && Quiet(s, s', h)
  {
    if response.None? { RaisedOk(cfg, s, h, approval); } else { ReturnedOk(cfg, s, h, approval, response.value); }
  }

  // ---- moves on the event table ---------------------------------------------------------------

  lemma EventMade(s: State, id: string, h: nat)
    requires RowsOk(s) && EventsOk(s) && id in s.rows
    ensures var s1 := s.(events := s.events[id := |s.owners|], owners := s.owners + [id]);
            Grows(s, s1, h) && RowsOk(s1) && EventsOk(s1)
  {
  }

  /** An event is dropped, and set as well if its row is resolved. */
  lemma EventDropped(s: State, id: string, fired: set<nat>, h: nat)
    requires RowsOk(s) && EventsOk(s)
    requires fired == s.fired || (id in s.events && fired == s.fired + {s.events[id]} && StoredResolved(s, id))
    ensures var s1 := s.(events := s.events - {id}, fired := fired); Grows(s, s1, h) && RowsOk(s1) && EventsOk(s1)
  {
  }

  /** A handler that made the event of its new row. */
  lemma MadeEventOk(cfg: Config, s: State, h: nat, row: Row, pc: Pc)
    requires Ready(cfg, s, h) && s.handlers[h].pc == Created(row)
    requires var s1 := s.(events := s.events[row.id := |s.owners|], owners := s.owners + [row.id]);
             HandlerOk(cfg, s1, h, s.handlers[h].(pc := pc))
    ensures var s1 := s.(events := s.events[row.id := |s.owners|], owners := s.owners + [row.id]);
            var s' := Goto(s1, h, s.handlers[h], pc);
            StepOk(cfg, s, s', h) && Quiet(s, s', h)
  {
    EventMade(s, row.id, h);
    StepByParts(cfg, s, s.(events := s.events[row.id := |s.owners|], owners := s.owners + [row.id]), h,
                s.handlers[h].(pc := pc));
  }

  lemma AfterCreateOk(cfg: Config, s: State, h: nat, row: Row)
    requires Ready(cfg, s, h) && s.handlers[h].pc == Created(row)
    ensures var s' := AfterCreate(cfg, s, h, s.handlers[h], row); StepOk(cfg, s, s', h) && Quiet(s, s', h)
  {
    MadeEventOk(cfg, s, h, row, Parked(cfg, s.handlers[h], row));
  }

  lemma TimeUpOk(cfg: Config, s: State, h: nat, id: string)
    requires h in s.handlers && RowsOk(s) && EventsOk(s) && Unspent(cfg, s.handlers[h])
    requires OwnRow(cfg, s, h, s.handlers[h], id) && s.rows[id].expiresAt <= s.clock && Held(cfg, s.handlers[h])
    ensures var s' := Goto(s.(events := s.events - {id}), h, s.handlers[h], TimedOutAt(cfg, id, s.clock));
            StepOk(cfg, s, s', h) && Quiet(s, s', h)
  {
    var s1 := s.(events := s.events - {id});
    EventDropped(s, id, s.fired, h);
    OwnRowKept(cfg, s, s1, h, s.handlers[h], id);
    UnspentOk(cfg, s1, h, s.handlers[h], TimedOutAt(cfg, id, s.clock));
    StepByParts(cfg, s, s1, h, s.handlers[h].(pc := TimedOutAt(cfg, id, s.clock)));
  }

  lemma SleepOk(cfg: Config, s: State, h: nat, nap: Nap)
    requires h in s.handlers && RowsOk(s) && EventsOk(s) && Unspent(cfg, s.handlers[h])
    requires NapOk(cfg, s, h, s.handlers[h], nap) && Held(cfg, s.handlers[h])
    ensures var s' := Goto(s, h, s.handlers[h], Sleeping(nap)); StepOk(cfg, s, s', h) && Quiet(s, s', h)
  {
    OnlyHandler(cfg, s, h, s.handlers[h].(pc := Sleeping(nap)));
  }

  /** The heart of the bound: a loop test that finds time left has seen every earlier sleep last its interval. */
  lemma WaitTestOk(cfg: Config, s: State, h: nat, id: string, wake: nat, deadline: Time, rounds: nat)
    requires Ready(cfg, s, h) && s.handlers[h].pc == Testing(id, wake, deadline, rounds)
    ensures var s' := WaitTest(cfg, s, h, s.handlers[h], id, wake, deadline, rounds);
            StepOk(cfg, s, s', h) && Quiet(s, s', h)
  {
    if deadline <= s.clock {
      TimeUpOk(cfg, s, h, id);
    } else {
      SleepOk(cfg, s, h, NextNap(id, wake, deadline, rounds, s.clock));
    }
  }

  lemma AfterWaitReadOk(cfg: Config, s: State, h: nat, id: string, found: Option<Row>)
    requires Ready(cfg, s, h) && s.handlers[h].pc == WaitRead(id, found)
    ensures var s' := AfterWaitRead(s, h, s.handlers[h], id, found); StepOk(cfg, s, s', h) && Quiet(s, s', h)
  {
    var x := s.handlers[h];
    if found.value.status.IsResolved() {
      UnspentOk(cfg, s, h, x, Applying(found, false));
      OnlyHandler(cfg, s, h, x.(pc := Applying(found, false)));
    } else if id in s.events {
      UnspentOk(cfg, s, h, x, Testing(id, s.events[id], found.value.expiresAt, 0));
      OnlyHandler(cfg, s, h, x.(pc := Testing(id, s.events[id], found.value.expiresAt, 0)));
    } else {
      WaitOnNewEventOk(cfg, s, h, id, found);
    }
  }

  lemma WaitOnNewEventOk(cfg: Config, s: State, h: nat, id: string, found: Option<Row>)
    requires Ready(cfg, s, h) && s.handlers[h].pc == WaitRead(id, found)
    ensures var s1 := s.(events := s.events[id := |s.owners|], owners := s.owners + [id]);
            var s' := Goto(s1, h, s.handlers[h], Testing(id, |s.owners|, found.value.expiresAt, 0));
            StepOk(cfg, s, s', h) && Quiet(s, s', h)
  {
    var x := s.handlers[h];
    var s1 := s.(events := s.events[id := |s.owners|], owners := s.owners + [id]);
    EventMade(s, id, h);
    OwnRowKept(cfg, s, s1, h, x, id);
    UnspentOk(cfg, s1, h, x, Testing(id, |s.owners|, found.value.expiresAt, 0));
    StepByParts(cfg, s, s1, h, x.(pc := Testing(id, |s.owners|, found.value.expiresAt, 0)));
  }

  lemma AnsweredPollOk(cfg: Config, s: State, h: nat, nap: Nap, found: Option<Row>)
    requires Ready(cfg, s, h) && s.handlers[h].pc == Polled(nap, found) && found.value.status.IsResolved()
    ensures var s' := Goto(s.(events := s.events - {nap.id}), h, s.handlers[h], Applying(found, false));
            StepOk(cfg, s, s', h) && Quiet(s, s', h)
  {
    var s1 := s.(events := s.events - {nap.id});
    EventDropped(s, nap.id, s.fired, h);
    UnspentOk(cfg, s1, h, s.handlers[h], Applying(found, false));
    StepByParts(cfg, s, s1, h, s.handlers[h].(pc := Applying(found, false)));
  }

  lemma AfterPollOk(cfg: Config, s: State, h: nat, nap: Nap, found: Option<Row>)
    requires Ready(cfg, s, h) && s.handlers[h].pc == Polled(nap, found)
    ensures var s' := AfterPoll(s, h, s.handlers[h], nap, found); StepOk(cfg, s, s', h) && Quiet(s, s', h)
  {
    if found.value.status.IsResolved() {
      AnsweredPollOk(cfg, s, h, nap, found);
    } else {
      UnspentOk(cfg, s, h, s.handlers[h], Testing(nap.id, nap.event, nap.deadline, nap.rounds));
      OnlyHandler(cfg, s, h, s.handlers[h].(pc := Testing(nap.id, nap.event, nap.deadline, nap.rounds)));
    }
  }

  lemma DismissedRowOk(cfg: Config, s: State, s1: State, h: nat, id: string, seen: Row, found: Option<Row>)
    requires Ready(cfg, s, h) && s.handlers[h].pc == Dismissed(id, seen, found) && s1.rows == s.rows
    ensures found.Some? && HandlerOk(cfg, s1, h, s.handlers[h].(pc := Applying(found, true)))
  {
  }

  lemma AfterDismissOk(cfg: Config, s: State, h: nat, id: string, seen: Row, found: Option<Row>)
    requires Ready(cfg, s, h) && s.handlers[h].pc == Dismissed(id, seen, found)
    ensures var s' := AfterDismiss(s, h, s.handlers[h], id, seen, found); StepOk(cfg, s, s', h) && Quiet(s, s', h)
  {
    var fired := if id in s.events then s.fired + {s.events[id]} else s.fired;
    var s1 := s.(events := s.events - {id}, fired := fired);
    EventDropped(s, id, fired, h);
    DismissedRowOk(cfg, s, s1, h, id, seen, found);
    StepByParts(cfg, s, s1, h, s.handlers[h].(pc := Applying(found, true)));
  }

  // ---- moves on a table of the database -------------------------------------------------------------

  lemma CreateOk(cfg: Config, s: State, h: nat, row: Row)
    requires Ready(cfg, s, h) && s.handlers[h].pc == Creating(row)
    ensures var s' := Goto(s.(rows := s.rows[row.id := row]), h, s.handlers[h], Created(row));
            StepOk(cfg, s, s', h) && Quiet(s, s', h)
  {
    var s1 := s.(rows := s.rows[row.id := row]);
    RowCreated(s, row, h);
    StepByParts(cfg, s, s1, h, s.handlers[h].(pc := Created(row)));
  }

  lemma RowCreated(s: State, row: Row, h: nat)
    requires RowsOk(s) && EventsOk(s)
    requires row.id !in s.rows && row.id !in s.notices && row.id in s.issued && s.issued[row.id] == h
    ensures var s1 := s.(rows := s.rows[row.id := row]); Grows(s, s1, h) && RowsOk(s1) && EventsOk(s1)
  {
  }

  /** Rows that may have evolved disturb neither rows nor events. */
  lemma RowsEvolve(s: State, rows: Table, h: nat)
    requires RowsOk(s) && EventsOk(s)
    requires Evolves(s.rows, rows) && rows.Keys == s.rows.Keys
    ensures var s1 := s.(rows := rows); Grows(s, s1, h) && RowsOk(s1) && EventsOk(s1)
  {
  }

  lemma AutoApproveOk(cfg: Config, s: State, h: nat, id: string, at: Time)
    requires Ready(cfg, s, h) && s.handlers[h].pc == AutoApproving(id, at)
    ensures var rows := Resolved(s.rows, id, true, TIMEOUT_APPROVER, AUTO_APPROVED, at);
            var s' := Goto(s.(rows := rows), h, s.handlers[h], Applying(Find(rows, id), false));
            StepOk(cfg, s, s', h) && Quiet(s, s', h)
  {
    var rows := Resolved(s.rows, id, true, TIMEOUT_APPROVER, AUTO_APPROVED, at);
    ResolveEvolves(s.rows, id, true, TIMEOUT_APPROVER, AUTO_APPROVED, at);
    RowsEvolve(s, rows, h);
    OwnRowKept(cfg, s, s.(rows := rows), h, s.handlers[h], id);
    UnspentOk(cfg, s.(rows := rows), h, s.handlers[h], Applying(Find(rows, id), false));
    StepByParts(cfg, s, s.(rows := rows), h, s.handlers[h].(pc := Applying(Find(rows, id), false)));
  }

  lemma DismissOk(cfg: Config, s: State, h: nat, id: string, seen: Row, at: Time)
    requires Ready(cfg, s, h) && s.handlers[h].pc == Dismissing(id, seen, at)
    ensures var rows := Resolved(s.rows, id, false, CLIENT_APPROVER, ABANDONED, at);
            var s' := Goto(s.(rows := rows), h, s.handlers[h], Dismissed(id, seen, Find(rows, id)));
            StepOk(cfg, s, s', h) && Quiet(s, s', h)
  {
    var rows := Resolved(s.rows, id, false, CLIENT_APPROVER, ABANDONED, at);
    ResolveEvolves(s.rows, id, false, CLIENT_APPROVER, ABANDONED, at);
    DismissedWith(cfg, s, h, id, rows);
  }

  lemma DismissedWith(cfg: Config, s: State, h: nat, id: string, rows: Table)
    requires Ready(cfg, s, h) && s.handlers[h].pc.Dismissing? && s.handlers[h].pc.id == id
    requires Evolves(s.rows, rows) && rows.Keys == s.rows.Keys && (id in rows ==> rows[id].status.IsResolved())
    ensures var s' := Goto(s.(rows := rows), h, s.handlers[h], Dismissed(id, s.handlers[h].pc.seen, Find(rows, id)));
            StepOk(cfg, s, s', h) && Quiet(s, s', h)
  {
    var x, s1 := s.handlers[h], s.(rows := rows);
    RowsEvolve(s, rows, h);
    UnspentOk(cfg, s1, h, x, Dismissed(id, x.pc.seen, Find(rows, id)));
    StepByParts(cfg, s, s1, h, x.(pc := Dismissed(id, x.pc.seen, Find(rows, id))));
  }

  /** After a sweep that reached the handler's row, the handler reads it again. */
  lemma TimeoutSweepOk(cfg: Config, s: State, h: nat, id: string, rows: Table)
    requires Ready(cfg, s, h) && s.handlers[h].pc.TimeoutSweeping? && s.handlers[h].pc.id == id
    requires Evolves(s.rows, rows) && rows.Keys == s.rows.Keys && id in rows && rows[id].status.IsResolved()
    ensures var s' := Goto(s.(rows := rows), h, s.handlers[h], TimeoutReading(id));
            StepOk(cfg, s, s', h) && Quiet(s, s', h)
  {
    RowsEvolve(s, rows, h);
    OwnRowKept(cfg, s, s.(rows := rows), h, s.handlers[h], id);
    UnspentOk(cfg, s.(rows := rows), h, s.handlers[h], TimeoutReading(id));
    StepByParts(cfg, s, s.(rows := rows), h, s.handlers[h].(pc := TimeoutReading(id)));
  }

  lemma RereadingOk(cfg: Config, s: State, s1: State, h: nat, id: string)
    requires Ready(cfg, s, h) && s.handlers[h].pc.ResumeSweeping? && s.handlers[h].pc.id == id
    requires StoredResolved(s1, id)
    ensures HandlerOk(cfg, s1, h, s.handlers[h].(pc := ResumeRereading(id)))
  {
  }

  lemma ResumeSweepOk(cfg: Config, s: State, h: nat, id: string, rows: Table)
    requires Ready(cfg, s, h) && s.handlers[h].pc.ResumeSweeping? && s.handlers[h].pc.id == id
    requires Evolves(s.rows, rows) && rows.Keys == s.rows.Keys && id in rows && rows[id].status.IsResolved()
    ensures var s' := Goto(s.(rows := rows), h, s.handlers[h], ResumeRereading(id));
            StepOk(cfg, s, s', h) && Quiet(s, s', h)
  {
    RowsEvolve(s, rows, h);
    RereadingOk(cfg, s, s.(rows := rows), h, id);
    StepByParts(cfg, s, s.(rows := rows), h, s.handlers[h].(pc := ResumeRereading(id)));
  }

  lemma ResumeSweptOk(cfg: Config, s: State, h: nat, id: string, moment: Time)
    requires Ready(cfg, s, h) && s.handlers[h].pc == ResumeSweeping(id, moment)
    ensures var s' := Goto(s.(rows := Swept(s.rows, moment)), h, s.handlers[h], ResumeRereading(id));
            StepOk(cfg, s, s', h) && Quiet(s, s', h)
  {
    SweepExpiresExactly(s.rows, moment);
    ResumeSweepOk(cfg, s, h, id, Swept(s.rows, moment));
  }

  lemma RecordOk(cfg: Config, s: State, h: nat, id: string, event: AuditEvent, reply: Reply)
    requires Ready(cfg, s, h) && TrailOk(cfg, s)
    requires s.handlers[h].pc == Recording(event, reply) && id !in s.trail
    ensures var s' := Record(cfg, s, h, s.handlers[h], id, event, reply); StepOk(cfg, s, s', h) && TrailOk(cfg, s')
  {
    if cfg.auditOn { WriteOk(cfg, s, h, id, event, reply); } else { DropOk(cfg, s, h, event, reply); }
  }

  lemma WriteOk(cfg: Config, s: State, h: nat, id: string, event: AuditEvent, reply: Reply)
    requires Ready(cfg, s, h) && TrailOk(cfg, s) && cfg.auditOn
    requires s.handlers[h].pc == Recording(event, reply) && id !in s.trail
    ensures var x := s.handlers[h];
            var s' := Put(s.(trail := s.trail[id := event], author := s.author[id := h]), h,
                          x.(wrote := x.wrote + [id], pc := Done(reply)));
            StepOk(cfg, s, s', h) && TrailOk(cfg, s')
  {
    var x := s.handlers[h];
    var s1 := s.(trail := s.trail[id := event], author := s.author[id := h]);
    WriteStep(cfg, s, s1, h, id, event, reply);
    WriteKeepsTrail(cfg, s, s1, h, id, event, x.(wrote := x.wrote + [id], pc := Done(reply)));
  }

  lemma WriteStep(cfg: Config, s: State, s1: State, h: nat, id: string, event: AuditEvent, reply: Reply)
    requires Ready(cfg, s, h) && cfg.auditOn && s.handlers[h].pc == Recording(event, reply)
    requires s1 == s.(trail := s1.trail, author := s1.author)
    ensures var x := s.handlers[h];
            && x.wrote == [] && Tells(cfg, x, event, reply)
            && StepOk(cfg, s, Put(s1, h, x.(wrote := x.wrote + [id], pc := Done(reply))), h)
  {
    var x := s.handlers[h];
    WriterOk(cfg, s, s1, h, id, event, reply);
    StepByParts(cfg, s, s1, h, x.(wrote := x.wrote + [id], pc := Done(reply)));
  }

  lemma WriterOk(cfg: Config, s: State, s1: State, h: nat, id: string, event: AuditEvent, reply: Reply)
    requires Ready(cfg, s, h) && cfg.auditOn && s.handlers[h].pc == Recording(event, reply)
    requires s1 == s.(trail := s1.trail, author := s1.author)
    ensures var x := s.handlers[h];
            && x.wrote == [] && Tells(cfg, x, event, reply)
            && HandlerOk(cfg, s1, h, x.(wrote := x.wrote + [id], pc := Done(reply)))
    ensures RowsOk(s1) && EventsOk(s1) && Grows(s, s1, h)
  {
    var x := s.handlers[h];
    TrailIsApart(s, s1, h);
    DoneOk(cfg, s, h, [id], event, reply);
    OthersKept(cfg, s, s1, h + 1, h, x.(wrote := [id], pc := Done(reply)));
    assert x.wrote + [id] == [id];
  }

  lemma TrailIsApart(s: State, s1: State, h: nat)
    requires RowsOk(s) && EventsOk(s) && s1 == s.(trail := s1.trail, author := s1.author)
    ensures RowsOk(s1) && EventsOk(s1) && Grows(s, s1, h) && Grows(s, s1, h + 1)
  {
  }

  lemma WriteKeepsTrail(cfg: Config, s: State, s1: State, h: nat, id: string, event: AuditEvent, x: Handler)
    requires TrailOk(cfg, s) && h in s.handlers && s.handlers[h].wrote == [] && id !in s.trail
    requires s1 == s.(trail := s.trail[id := event], author := s.author[id := h])
    requires x.wrote == s.handlers[h].wrote + [id] && x.pc.Done? && Tells(cfg, x, event, x.pc.reply)
    ensures TrailOk(cfg, Put(s1, h, x))
  {
    RecordKeepsTrail(cfg, s, Put(s1, h, x), h, id);
  }

  lemma DoneOk(cfg: Config, s: State, h: nat, wrote: seq<string>, event: AuditEvent, reply: Reply)
    requires Ready(cfg, s, h) && s.handlers[h].pc == Recording(event, reply)
    requires |wrote| == (if cfg.auditOn then 1 else 0)
    ensures HandlerOk(cfg, s, h, s.handlers[h].(wrote := wrote, pc := Done(reply)))
    ensures s.handlers[h].wrote == []
  {
    var x' := s.handlers[h].(wrote := wrote, pc := Done(reply));
    SentKept(cfg, s, h, s.handlers[h], x');
    ReplyCarries(cfg, s, h, s.handlers[h], x', reply);
    assert PcOk(cfg, s, h, x');
  }

  lemma DropOk(cfg: Config, s: State, h: nat, event: AuditEvent, reply: Reply)
    requires Ready(cfg, s, h) && TrailOk(cfg, s) && !cfg.auditOn && s.handlers[h].pc == Recording(event, reply)
    ensures var s' := Goto(s, h, s.handlers[h], Done(reply)); StepOk(cfg, s, s', h) && TrailOk(cfg, s')
  {
    var x' := s.handlers[h].(pc := Done(reply));
    DoneOk(cfg, s, h, [], event, reply);
    OnlyHandler(cfg, s, h, x');
    QuietKeepsTrail(cfg, s, Put(s, h, x'), h);
  }

  lemma RecordKeepsTrail(cfg: Config, s: State, s': State, h: nat, id: string)
    requires TrailOk(cfg, s) && h in s.handlers && s.handlers[h].wrote == [] && id !in s.trail
    requires h in s'.handlers && s'.handlers == s.handlers[h := s'.handlers[h]] && s'.handlers[h].wrote == [id]
    requires id in s'.trail && s'.trail == s.trail[id := s'.trail[id]] && s'.author == s.author[id := h]
    requires s'.handlers[h].pc.Done? && Tells(cfg, s'.handlers[h], s'.trail[id], s'.handlers[h].pc.reply)
    ensures TrailOk(cfg, s')
  {
  }

  // ---- every move of a handler ----------------------------------------------------------------------

  lemma WaitReadingOk(cfg: Config, s: State, h: nat, id: string)
    requires Ready(cfg, s, h) && s.handlers[h].pc == WaitReading(id)
    ensures var s' := Goto(s, h, s.handlers[h], WaitRead(id, Find(s.rows, id)));
            StepOk(cfg, s, s', h) && Quiet(s, s', h)
  {
    OnlyHandler(cfg, s, h, s.handlers[h].(pc := WaitRead(id, Find(s.rows, id))));
  }

  lemma TimeoutReadingOk(cfg: Config, s: State, h: nat, id: string)
    requires Ready(cfg, s, h) && s.handlers[h].pc == TimeoutReading(id)
    ensures var s' := Goto(s, h, s.handlers[h], Applying(Find(s.rows, id), false));
            StepOk(cfg, s, s', h) && Quiet(s, s', h)
  {
    OnlyHandler(cfg, s, h, s.handlers[h].(pc := Applying(Find(s.rows, id), false)));
  }

  lemma ResumeReadingOk(cfg: Config, s: State, h: nat, id: string)
    requires Ready(cfg, s, h) && s.handlers[h].pc == ResumeReading(id)
    ensures var s' := Goto(s, h, s.handlers[h], ResumeRead(id, Find(s.rows, id)));
            StepOk(cfg, s, s', h) && Quiet(s, s', h)
  {
    OnlyHandler(cfg, s, h, s.handlers[h].(pc := ResumeRead(id, Find(s.rows, id))));
  }

  lemma ResumeRereadingOk(cfg: Config, s: State, h: nat, id: string)
    requires Ready(cfg, s, h) && s.handlers[h].pc == ResumeRereading(id)
    ensures var s' := Goto(s, h, s.handlers[h], Resuming(id, Find(s.rows, id)));
            StepOk(cfg, s, s', h) && Quiet(s, s', h)
  {
    OnlyHandler(cfg, s, h, s.handlers[h].(pc := Resuming(id, Find(s.rows, id))));
  }

  lemma WakeOk(cfg: Config, s: State, h: nat, nap: Nap)
    requires Ready(cfg, s, h) && s.handlers[h].pc == Sleeping(nap)
    requires nap.event in s.fired || nap.wakeAt <= s.clock
    ensures var s' := Goto(s, h, s.handlers[h], Polling(nap)); StepOk(cfg, s, s', h) && Quiet(s, s', h)
  {
    OnlyHandler(cfg, s, h, s.handlers[h].(pc := Polling(nap)));
  }

  lemma PollOk(cfg: Config, s: State, h: nat, nap: Nap)
    requires Ready(cfg, s, h) && s.handlers[h].pc == Polling(nap)
    ensures var s' := Goto(s, h, s.handlers[h], Polled(nap, Find(s.rows, nap.id)));
            StepOk(cfg, s, s', h) && Quiet(s, s', h)
  {
    OnlyHandler(cfg, s, h, s.handlers[h].(pc := Polled(nap, Find(s.rows, nap.id))));
  }

  lemma WaitRunOk(cfg: Config, s: State, h: nat, choice: Choice)
    requires Ready(cfg, s, h) && CanRun(cfg, s, h, choice) && InWait(s.handlers[h].pc)
    ensures var s' := RunWait(cfg, s, h, s.handlers[h]); StepOk(cfg, s, s', h) && Quiet(s, s', h)
  {
    match s.handlers[h].pc {
      case WaitReading(id) => WaitReadingOk(cfg, s, h, id);
      case WaitRead(id, found) => AfterWaitReadOk(cfg, s, h, id, found);
      case Testing(id, wake, deadline, rounds) => WaitTestOk(cfg, s, h, id, wake, deadline, rounds);
      case Sleeping(nap) => WakeOk(cfg, s, h, nap);
      case Polling(nap) => PollOk(cfg, s, h, nap);
      case Polled(nap, found) => AfterPollOk(cfg, s, h, nap, found);
    }
  }

  lemma TimeoutRunOk(cfg: Config, s: State, h: nat, choice: Choice)
    requires Ready(cfg, s, h) && CanRun(cfg, s, h, choice) && InTimeout(s.handlers[h].pc)
    ensures var s' := RunTimeout(s, h, s.handlers[h]); StepOk(cfg, s, s', h) && Quiet(s, s', h)
  {
    var x := s.handlers[h];
    match x.pc {
      case AutoApproving(id, at) => AutoApproveOk(cfg, s, h, id, at);
      case TimeoutSweeping(id, moment) =>
        SweepExpiresExactly(s.rows, moment);
        TimeoutSweepOk(cfg, s, h, id, Swept(s.rows, moment));
      case TimeoutReading(id) => TimeoutReadingOk(cfg, s, h, id);
    }
  }

  lemma ResumeRunOk(cfg: Config, s: State, h: nat, choice: Choice)
    requires Ready(cfg, s, h) && CanRun(cfg, s, h, choice) && InResume(s.handlers[h].pc)
    ensures var s' := RunResume(s, h, s.handlers[h]); StepOk(cfg, s, s', h) && Quiet(s, s', h)
  {
    match s.handlers[h].pc {
      case ResumeReading(id) => ResumeReadingOk(cfg, s, h, id);
      case ResumeRead(id, found) => CheckedOk(cfg, s, h, id, found);
      case ResumeSweeping(id, moment) => ResumeSweptOk(cfg, s, h, id, moment);
      case ResumeRereading(id) => ResumeRereadingOk(cfg, s, h, id);
    }
  }

  lemma OpeningRunOk(cfg: Config, s: State, h: nat, choice: Choice)
    requires Ready(cfg, s, h) && CanRun(cfg, s, h, choice) && InOpening(s.handlers[h].pc)
    ensures var s' := RunOpening(cfg, s, h, choice); StepOk(cfg, s, s', h) && Quiet(s, s', h)
  {
    match s.handlers[h].pc {
      case Begin => StartOk(cfg, s, h, choice);
      case Creating(row) => CreateOk(cfg, s, h, row);
      case Created(row) => AfterCreateOk(cfg, s, h, row);
    }
  }

  lemma DismissalRunOk(cfg: Config, s: State, h: nat, choice: Choice)
    requires Ready(cfg, s, h) && CanRun(cfg, s, h, choice) && InDismissal(s.handlers[h].pc)
    ensures var s' := RunDismissal(s, h, s.handlers[h]); StepOk(cfg, s, s', h) && Quiet(s, s', h)
  {
    match s.handlers[h].pc {
      case Resuming(id, found) => FoundOk(cfg, s, h, id, found);
      case Dismissing(id, seen, at) => DismissOk(cfg, s, h, id, seen, at);
      case Dismissed(id, seen, found) => AfterDismissOk(cfg, s, h, id, seen, found);
    }
  }

  lemma ActingRunOk(cfg: Config, s: State, h: nat, choice: Choice)
    requires Ready(cfg, s, h) && CanRun(cfg, s, h, choice) && InActing(s.handlers[h].pc)
    ensures var s' := RunActing(cfg, s, h, s.handlers[h], choice.response); StepOk(cfg, s, s', h) && Quiet(s, s', h)
  {
    match s.handlers[h].pc {
      case Applying(found, dismissal) => AppliedOk(cfg, s, h, found, dismissal);
      case Forwarding(approval) => ForwardOk(cfg, s, h, approval);
      case Calling(approval) => ReceivedOk(cfg, s, h, approval, choice.response);
    }
  }

  lemma SettlingRunOk(cfg: Config, s: State, s': State, h: nat, choice: Choice)
    requires Ready(cfg, s, h) && CanRun(cfg, s, h, choice)
    requires var x := s.handlers[h];
             || (InResume(x.pc) && s' == RunResume(s, h, x))
             || (InDismissal(x.pc) && s' == RunDismissal(s, h, x))
             || (InActing(x.pc) && s' == RunActing(cfg, s, h, x, choice.response))
    ensures StepOk(cfg, s, s', h) && Quiet(s, s', h)
  {
    var pc := s.handlers[h].pc;
    if InResume(pc) { ResumeRunOk(cfg, s, h, choice); }
    else if InDismissal(pc) { DismissalRunOk(cfg, s, h, choice); }
    else { ActingRunOk(cfg, s, h, choice); }
  }

  lemma WaitingRunOk(cfg: Config, s: State, s': State, h: nat, choice: Choice)
    requires Ready(cfg, s, h) && CanRun(cfg, s, h, choice)
    requires var x := s.handlers[h];
             || (InOpening(x.pc) && s' == RunOpening(cfg, s, h, choice))
             || (InWait(x.pc) && s' == RunWait(cfg, s, h, x))
             || (InTimeout(x.pc) && s' == RunTimeout(s, h, x))
    ensures StepOk(cfg, s, s', h) && Quiet(s, s', h)
  {
    var pc := s.handlers[h].pc;
    if InOpening(pc) { OpeningRunOk(cfg, s, h, choice); }
    else if InWait(pc) { WaitRunOk(cfg, s, h, choice); }
    else { TimeoutRunOk(cfg, s, h, choice); }
  }

  lemma RunOk(cfg: Config, s: State, h: nat, choice: Choice)
    requires Ready(cfg, s, h) && TrailOk(cfg, s) && CanRun(cfg, s, h, choice)
    ensures var s' := RunNext(cfg, s, h, choice); StepOk(cfg, s, s', h) && TrailOk(cfg, s')
  {
    var pc, s' := s.handlers[h].pc, RunNext(cfg, s, h, choice);
    Dispatch(cfg, s, h, choice);
    if pc.Recording? {
      RecordOk(cfg, s, h, choice.id, pc.event, pc.reply);
    } else {
      if InOpening(pc) || InWait(pc) || InTimeout(pc) {
        WaitingRunOk(cfg, s, s', h, choice);
      } else {
        SettlingRunOk(cfg, s, s', h, choice);
      }
      QuietKeepsTrail(cfg, s, s', h);
    }
  }

  // ---- the environment, and all moves -----------------------------------------------------------

  lemma EnvironmentOk(cfg: Config, s: State, m: Move, h: nat)
    requires RowsOk(s) && EventsOk(s) && Enabled(cfg, s, m) && !m.Run?
    ensures var s' := Next(cfg, s, m); Grows(s, s', h) && RowsOk(s') && EventsOk(s')
  {
    match m
    case Tick(to) => Elsewhere(s, s.(clock := to), h);
    case SweepPage(moment) => PageSwept(s, moment, h);
    case Refresh(registry) => Elsewhere(s, s.(registry := registry), h);
    case Arrive(g, call) => Elsewhere(s, Put(s, g, NewHandler(call)), h);
    case HumanDecides(id, approved, approver, note, at) => DecisionMade(s, id, approved, approver, note, at, h);
    case Notify(id) => NoticeDelivered(s, id, h);
  }

  lemma Elsewhere(s: State, s1: State, h: nat)
    requires RowsOk(s) && EventsOk(s) && s.clock <= s1.clock
    requires s1 == s.(clock := s1.clock, registry := s1.registry, handlers := s1.handlers)
    ensures Grows(s, s1, h) && RowsOk(s1) && EventsOk(s1)
  {
  }

  lemma DecisionMade(s: State, id: string, approved: bool, approver: string, note: Option<string>, at: Time, h: nat)
    requires RowsOk(s) && EventsOk(s) && (id in s.rows || id !in s.issued)
    ensures var rows := Resolved(s.rows, id, approved, approver, note, at);
            var s1 := s.(rows := rows, notices := s.notices + multiset{id}, named := s.named + {id});
            Grows(s, s1, h) && RowsOk(s1) && EventsOk(s1)
  {
    ResolveEvolves(s.rows, id, approved, approver, note, at);
    DecisionNoted(s, Resolved(s.rows, id, approved, approver, note, at), id, h);
  }

  lemma PageSwept(s: State, moment: Time, h: nat)
    requires RowsOk(s) && EventsOk(s)
    ensures var s1 := s.(rows := Swept(s.rows, moment)); Grows(s, s1, h) && RowsOk(s1) && EventsOk(s1)
  {
    SweepExpiresExactly(s.rows, moment);
    RowsEvolve(s, Swept(s.rows, moment), h);
  }

  lemma DecisionNoted(s: State, rows: Table, id: string, h: nat)
    requires RowsOk(s) && EventsOk(s) && (id in s.rows || id !in s.issued)
    requires Evolves(s.rows, rows) && rows.Keys == s.rows.Keys && (id in rows ==> rows[id].status.IsResolved())
    ensures var s1 := s.(rows := rows, notices := s.notices + multiset{id}, named := s.named + {id});
            Grows(s, s1, h) && RowsOk(s1) && EventsOk(s1)
  {
    var s1 := s.(rows := rows, notices := s.notices + multiset{id}, named := s.named + {id});
    forall other | other in s1.notices ensures other == id || other in s.notices {}
  }

  lemma NoticeDelivered(s: State, id: string, h: nat)
    requires RowsOk(s) && EventsOk(s) && id in s.notices
    ensures var s1 := s.(notices := s.notices - multiset{id},
                         fired := if id in s.events then s.fired + {s.events[id]} else s.fired);
            Grows(s, s1, h) && RowsOk(s1) && EventsOk(s1)
  {
  }

  lemma EnvironmentKeepsTrail(cfg: Config, s: State, m: Move)
    requires TrailOk(cfg, s) && Enabled(cfg, s, m) && !m.Run?
    ensures TrailOk(cfg, Next(cfg, s, m))
  {
  }

  lemma EnvironmentKeepsHandlers(cfg: Config, s: State, m: Move)
    requires Inv(cfg, s) && Enabled(cfg, s, m) && !m.Run?
    ensures HandlersOk(cfg, Next(cfg, s, m))
  {
    var s' := Next(cfg, s, m);
    forall g: nat ensures HandlerAt(cfg, s', g) {
      assert HandlerAt(cfg, s, g);
      if g in s.handlers {
        EnvironmentOk(cfg, s, m, g + 1);
        OthersKept(cfg, s, s', g + 1, g, s.handlers[g]);
      } else if m.Arrive? && m.h == g {
        assert HandlerOk(cfg, s', g, NewHandler(m.call));
      }
    }
  }

  lemma MovesKeepInv(cfg: Config, s: State, m: Move)
    requires Inv(cfg, s) && Enabled(cfg, s, m)
    ensures Inv(cfg, Next(cfg, s, m))
  {
    if m.Run? {
      assert HandlerAt(cfg, s, m.h);
      RunOk(cfg, s, m.h, m.choice);
      StepKeepsHandlers(cfg, s, Next(cfg, s, m), m.h);
    } else {
      EnvironmentOk(cfg, s, m, 0);
      EnvironmentKeepsTrail(cfg, s, m);
      EnvironmentKeepsHandlers(cfg, s, m);
    }
  }

  lemma {:induction false} RunsKeepInv(cfg: Config, t: Trace, i: nat)
    requires IsRun(cfg, t) && i < |t.states|
    ensures Inv(cfg, t.states[i])
    decreases i
  {
    if i > 0 {
      RunsKeepInv(cfg, t, i - 1);
      StepTaken(cfg, t, i - 1);
      MovesKeepInv(cfg, t.states[i - 1], t.moves[i - 1]);
    }
  }
}
