/**
 * The gate as a concurrent transition system.
 *
 * Any number of handlers run `Gateway.call_tool`, each with its own program counter. Every await is an
 * interleaving point, every database call one atomic move, and every stretch of code between two awaits one
 * move (or several, which only adds interleavings). Beside the handlers, approvers decide, pages sweep, the
 * tool registry is refreshed and the clock advances.
 */
module Protocol {
  import opened Wrappers
  import opened Json
  import opened Engine
  import opened Redaction
  import opened Registry
  import opened Timestamps
  import opened ApprovalStore
  import opened AuditStore

  // ---- configuration and calls -------------------------------------------------

  datatype ApprovalMode = Auto | Elicit | Block

  /** What the gateway is given: the policy engine and the redactor come as functions of a request and of arguments. */
  datatype Config = Config(
    decide: PolicyRequest -> Decision,
    redact: Arguments -> Arguments,
    timeout: nat,               // microseconds
    approveOnTimeout: bool,
    mode: ApprovalMode,
    auditOn: bool,
    connections: set<string>)

  /** The configuration runs this policy and these redaction patterns. */
  ghost predicate Deploys(cfg: Config, policy: Policy, patterns: seq<string>) {
    && (forall request :: cfg.decide(request) == Decide(request, policy))
    && (forall arguments :: cfg.redact(arguments) == RedactArguments(arguments, patterns))
  }

  const POLL: int := 500_000    // POLL_INTERVAL_SECONDS, in microseconds

  /** One `tools/call`; `retry` is the request state of a call that also carries input responses. */
  datatype Call = Call(
    tool: string,
    arguments: Arguments,
    clientName: Option<string>,
    supportsUrl: bool,
    retry: Option<string>)

  /** What the client is answered; the wording of messages is not modelled. */
  datatype Reply =
    | NoSuchTool
    | NotOnFile                      // a retry names an approval nobody stored
    | Vanished                       // the approval disappeared while it was awaited
    | Refused(outcome: Outcome, approval: Option<Row>)
    | Unavailable                    // the upstream is not connected, or its call raised
    | Returned(isError: bool)
    | InputRequired(request: Row)

  /** A call that reached an upstream. */
  datatype Sent = Sent(upstream: string, tool: string, arguments: Arguments, approval: Option<Row>)

  // ---- handlers --------------------------------------------------------------------

  /** One sleep of the wait loop: on which event, until when, and the how-manieth it is. */
  datatype Nap = Nap(id: string, event: nat, deadline: Time, wakeAt: Time, rounds: nat)

  /** Where a handler is: named after the await it is about to finish, or the code it is about to run. */
  datatype Pc =
    | Begin
    | Creating(row: Row)
    | Created(row: Row)
    | WaitReading(id: string)
    | WaitRead(id: string, found: Option<Row>)
    | Testing(id: string, wake: nat, deadline: Time, rounds: nat)
    | Sleeping(nap: Nap)
    | Polling(nap: Nap)
    | Polled(nap: Nap, found: Option<Row>)
    | AutoApproving(id: string, at: Time)
    | TimeoutSweeping(id: string, moment: Time)
    | TimeoutReading(id: string)
    | ResumeReading(id: string)
    | ResumeRead(id: string, found: Option<Row>)
    | ResumeSweeping(id: string, moment: Time)
    | ResumeRereading(id: string)
    | Resuming(id: string, found: Option<Row>)
    | Dismissing(id: string, seen: Row, at: Time)
    | Dismissed(id: string, seen: Row, found: Option<Row>)
    | Applying(found: Option<Row>, dismissal: bool)
    | Forwarding(approval: Option<Row>)
    | Calling(approval: Option<Row>)
    | Recording(event: AuditEvent, reply: Reply)
    | Done(reply: Reply)

  /**
   * One run of `call_tool`. `sent`, `returned` and `wrote` are history: the upstream calls it made, whether
   * one returned, and the ids of the events it recorded.
   */
  datatype Handler = Handler(
    call: Call,
    entry: Option<NamespacedTool>,
    decision: Decision,
    pc: Pc,
    sent: seq<Sent>,
    returned: bool,
    wrote: seq<string>)

  /** The decision recorded for a tool nobody registered. */
  const UNREGISTERED := Decision(Deny, ByDefault, Some("tool is not registered"), None)

  function NewHandler(call: Call): Handler { Handler(call, None, UNREGISTERED, Begin, [], false, []) }

  function RequestOf(call: Call, entry: NamespacedTool): PolicyRequest {
    PolicyRequest(call.tool, entry.upstream, call.arguments, entry.Annotations())
  }

  // ---- states ------------------------------------------------------------------------

  /**
   * The shared state. `events` is the service's table from approval id to wake-up event; an event is a
   * number, `owners[e]` the id it was made for, and `fired` the events set so far. `notices` are the ids
   * decided by an approver whose waiters have yet to be woken. `issued` maps an id drawn for a new approval
   * to the handler that drew it, `named` holds every id an approver submitted, and `author` the handler
   * that wrote an audit event: all three are history.
   */
  datatype State = State(
    clock: Time,
    rows: Table,
    events: map<string, nat>,
    owners: seq<string>,
    fired: set<nat>,
    notices: multiset<string>,
    issued: map<string, nat>,
    named: set<string>,
    registry: ToolRegistry,
    trail: Trail,
    author: map<string, nat>,
    handlers: map<nat, Handler>)

  /** A process starts with no handlers and no events, on whatever the database already holds. */
  predicate Init(s: State) {
    && (forall id | id in s.rows :: s.rows[id].id == id)
    && s.events == map[] && s.owners == [] && s.fired == {} && s.notices == multiset{}
    && s.issued == map[] && s.named == {} && s.author == map[] && s.handlers == map[]
  }

  /** What nondeterminism a handler's move may use: a fresh id, and the upstream's response (None: it raised). */
  datatype Choice = Choice(id: string, response: Option<bool>)

  datatype Move =
    | Tick(to: Time)
    | SweepPage(moment: Time)                      // a page lists the queue or opens an overdue request
    | Refresh(registry: ToolRegistry)
    | Arrive(h: nat, call: Call)
    | HumanDecides(id: string, approved: bool, approver: string, note: Option<string>, at: Time)
    | Notify(id: string)                           // the decider resumes and sets the event
    | Run(h: nat, choice: Choice)

  /** Approval ids are drawn at random: never one already stored, drawn or submitted. */
  predicate Fresh(s: State, id: string) { id !in s.rows && id !in s.issued && id !in s.named }

  predicate NeedsApproval(cfg: Config, s: State, call: Call) {
    && call.tool in s.registry && call.retry.None?
    && cfg.decide(RequestOf(call, s.registry[call.tool])).action == RequireApproval
  }

  predicate CanRun(cfg: Config, s: State, h: nat, choice: Choice) {
    h in s.handlers
    && var x := s.handlers[h];
       match x.pc
       case Begin => NeedsApproval(cfg, s, x.call) ==>
         Fresh(s, choice.id) && s.clock + cfg.timeout < DAYS * DAY
       case Sleeping(nap) => nap.event in s.fired || nap.wakeAt <= s.clock
       case Recording(_, _) => choice.id !in s.trail
       case Done(_) => false
       case _ => true
  }

  predicate Enabled(cfg: Config, s: State, m: Move) {
    match m
    case Tick(to) => s.clock <= to
    case SweepPage(moment) => moment <= s.clock
    case Refresh(_) => true
    case Arrive(h, _) => h !in s.handlers
    case HumanDecides(id, _, _, _, at) => at <= s.clock && (id in s.rows || id !in s.issued)
    case Notify(id) => id in s.notices
    case Run(h, choice) => CanRun(cfg, s, h, choice)
  }

  // ---- moves of a handler ----------------------------------------------------------------

  function Put(s: State, h: nat, x: Handler): State { s.(handlers := s.handlers[h := x]) }

  function Goto(s: State, h: nat, x: Handler, pc: Pc): State { Put(s, h, x.(pc := pc)) }

  function UseElicitation(mode: ApprovalMode, supportsUrl: bool): bool {
    match mode
    case Elicit => true
    case Block => false
    case Auto => supportsUrl
  }

  /** The event a handler records about a registered tool. */
  function EventOf(cfg: Config, x: Handler, decision: Decision, outcome: Outcome, status: Option<ResultStatus>,
                   approval: Option<Row>): AuditEvent
  {
    MakeEvent(x.call.tool, if x.entry.Some? then x.entry.value.upstream else "", cfg.redact(x.call.arguments),
              decision, outcome, x.call.clientName, status, approval)
  }

  /** The upstream an unregistered name seems to belong to. */
  function UpstreamOf(tool: string): string {
    match SplitNamespace(tool)
    case Some((upstream, _)) => upstream
    case None => "unknown"
  }

  /** The event of `_unknown_tool`. */
  function UnknownToolEvent(cfg: Config, call: Call): AuditEvent {
    MakeEvent(call.tool, UpstreamOf(call.tool), cfg.redact(call.arguments), UNREGISTERED, UnknownTool,
              call.clientName, Some(ResultError), None)
  }

  /** The pending request `open` parks a call with. */
  function NewRow(cfg: Config, x: Handler, entry: NamespacedTool, decision: Decision, id: string, now: Time): Row
    requires now + cfg.timeout < DAYS * DAY
  {
    Row(id, now, now + cfg.timeout, Pending, x.call.tool, entry.upstream, x.call.arguments, decision.reason,
        x.call.clientName, None, None, None)
  }

  /** A handler once its tool is found and the policy has spoken. */
  function Admitted(cfg: Config, x: Handler, entry: NamespacedTool): Handler {
    x.(entry := Some(entry), decision := cfg.decide(RequestOf(x.call, entry)))
  }

  /** Where an admitted call goes that opens no approval: resume, forward or deny. */
  function Directly(cfg: Config, x: Handler): Pc {
    if x.call.retry.Some? then ResumeReading(x.call.retry.value)
    else if x.decision.action.Allow? then Forwarding(None)
    else Recording(EventOf(cfg, x, x.decision, DeniedByPolicy, Some(ResultError), None), Refused(DeniedByPolicy, None))
  }

  /** `call_tool`, up to its first await. */
  function Start(cfg: Config, s: State, h: nat, choice: Choice): State
    requires CanRun(cfg, s, h, choice) && s.handlers[h].pc.Begin?
  {
    var x := s.handlers[h];
    if x.call.tool !in s.registry then
      Goto(s, h, x, Recording(UnknownToolEvent(cfg, x.call), NoSuchTool))
    else
      var entry := s.registry[x.call.tool];
      var x' := Admitted(cfg, x, entry);
      if NeedsApproval(cfg, s, x.call) then
        Goto(s.(issued := s.issued[choice.id := h]), h, x',
             Creating(NewRow(cfg, x', entry, x'.decision, choice.id, s.clock)))
      else Goto(s, h, x', Directly(cfg, x'))
  }

  /** Where a parked call goes: back to its client with a link, or to wait. */
  function Parked(cfg: Config, x: Handler, row: Row): Pc {
    if UseElicitation(cfg.mode, x.call.supportsUrl)
    then Recording(EventOf(cfg, x, x.decision, AwaitingApproval, None, Some(row)), InputRequired(row))
    else WaitReading(row.id)
  }

  /** After the row is stored: make its event, then hand out a link or wait. */
  function AfterCreate(cfg: Config, s: State, h: nat, x: Handler, row: Row): State {
    Goto(s.(events := s.events[row.id := |s.owners|], owners := s.owners + [row.id]), h, x, Parked(cfg, x, row))
  }

  /** With an event for this approval: the one there is, or a new one. */
  function WithEvent(s: State, id: string): State {
    if id in s.events then s else s.(events := s.events[id := |s.owners|], owners := s.owners + [id])
  }

  /** A wait that has nothing to wait for: no row, or a resolved one. */
  predicate Answered(found: Option<Row>) { found.None? || found.value.status.IsResolved() }

  /** After `wait` first reads the row. */
  function AfterWaitRead(s: State, h: nat, x: Handler, id: string, found: Option<Row>): State {
    if Answered(found) then Goto(s, h, x, Applying(found, false))
    else
      Goto(WithEvent(s, id), h, x, Testing(id, WithEvent(s, id).events[id], found.value.expiresAt, 0))
  }

  /** The sleep a test of the wait loop begins: until the event, the next poll or the deadline. */
  function NextNap(id: string, wake: nat, deadline: Time, rounds: nat, now: Time): Nap {
    Nap(id, wake, deadline, if now + POLL <= deadline then now + POLL else deadline, rounds + 1)
  }

  /** How a wait is settled whose deadline has passed. */
  function TimedOutAt(cfg: Config, id: string, now: Time): Pc {
    if cfg.approveOnTimeout then AutoApproving(id, now) else TimeoutSweeping(id, now)
  }

  /** One test of the wait loop. */
  function WaitTest(cfg: Config, s: State, h: nat, x: Handler, id: string, wake: nat, deadline: Time, rounds: nat)
    : State
  {
    if deadline <= s.clock then Goto(s.(events := s.events - {id}), h, x, TimedOutAt(cfg, id, s.clock))
    else Goto(s, h, x, Sleeping(NextNap(id, wake, deadline, rounds, s.clock)))
  }

  /** After a poll of the wait loop. */
  function AfterPoll(s: State, h: nat, x: Handler, nap: Nap, found: Option<Row>): State {
    if Answered(found) then
      Goto(if found.Some? then s.(events := s.events - {nap.id}) else s, h, x, Applying(found, false))
    else Goto(s, h, x, Testing(nap.id, nap.event, nap.deadline, nap.rounds))
  }

  /** `get` after its read: an overdue row is swept and read again. */
  function Checked(id: string, found: Option<Row>, now: Time): Pc {
    if found.Some? && found.value.IsExpiredAt(now) then ResumeSweeping(id, now) else Resuming(id, found)
  }

  /** `_resume` after `get`. */
  function Found(id: string, found: Option<Row>, now: Time): Pc {
    if found.None? then Done(NotOnFile)
    else if found.value.status.IsResolved() then Applying(found, false)
    else Dismissing(id, found.value, now)
  }

  /** `dismiss` after its write: drop the event and set it; `_resume` falls back on the row it had seen. */
  function AfterDismiss(s: State, h: nat, x: Handler, id: string, seen: Row, found: Option<Row>): State {
    var fired := if id in s.events then s.fired + {s.events[id]} else s.fired;
    Goto(s.(events := s.events - {id}, fired := fired), h, x,
         Applying(Some(if found.Some? then found.value else seen), true))
  }

  /** `_apply_approval`. */
  function Applied(cfg: Config, x: Handler, found: Option<Row>, dismissal: bool): Pc {
    if found.None? then Done(Vanished)
    else if found.value.status.IsGranted() then Forwarding(found)
    else
      var outcome := if dismissal then DismissedByClient
                     else if found.value.status.Expired? then TimedOut else DeniedByApprover;
      Recording(EventOf(cfg, x, x.decision, outcome, Some(ResultError), found), Refused(outcome, found))
  }

  /** A handler whose call is on its way to the upstream. */
  function Sending(x: Handler, entry: NamespacedTool, approval: Option<Row>): Handler {
    x.(sent := x.sent + [Sent(entry.upstream, entry.remoteName, x.call.arguments, approval)], pc := Calling(approval))
  }

  /** A handler whose upstream is not connected. */
  function Unconnected(cfg: Config, x: Handler): Pc {
    var failed := Decision(Deny, x.decision.source, Some("upstream unavailable"), None);
    Recording(EventOf(cfg, x, failed, Error, Some(ResultError), None), Unavailable)
  }

  /** A handler set to forward: on its way, if its upstream is connected. */
  function Onward(cfg: Config, x: Handler, entry: NamespacedTool, approval: Option<Row>): Handler {
    if entry.upstream in cfg.connections then Sending(x, entry, approval) else x.(pc := Unconnected(cfg, x))
  }

  /** `_forward`, up to the upstream call. */
  function Forward(cfg: Config, s: State, h: nat, x: Handler, approval: Option<Row>): State {
    if x.entry.None? then s else Put(s, h, Onward(cfg, x, x.entry.value, approval))
  }

  /** `_forward`, once the upstream call has returned, or raised (None). */
  function Received(cfg: Config, x: Handler, approval: Option<Row>, response: Option<bool>): Handler {
    match response
    case None => x.(pc := Recording(EventOf(cfg, x, x.decision, Error, Some(ResultError), approval), Unavailable))
    case Some(isError) =>
      var status := if isError then ResultError else ResultOk;
      x.(returned := true,
         pc := Recording(EventOf(cfg, x, x.decision, Forwarded, Some(status), approval), Returned(isError)))
  }

  /** `AuditStore.record`, on a live store or on the null store. */
  function Record(cfg: Config, s: State, h: nat, x: Handler, id: string, event: AuditEvent, reply: Reply): State {
    if cfg.auditOn then
      Put(s.(trail := s.trail[id := event], author := s.author[id := h]), h,
          x.(wrote := x.wrote + [id], pc := Done(reply)))
    else Goto(s, h, x, Done(reply))
  }

  // ---- the stretches of a handler's life ---------------------------------------------------

  predicate InOpening(pc: Pc) { pc.Begin? || pc.Creating? || pc.Created? }

  predicate InWait(pc: Pc) {
    pc.WaitReading? || pc.WaitRead? || pc.Testing? || pc.Sleeping? || pc.Polling? || pc.Polled?
  }

  predicate InTimeout(pc: Pc) { pc.AutoApproving? || pc.TimeoutSweeping? || pc.TimeoutReading? }

  predicate InResume(pc: Pc) { pc.ResumeReading? || pc.ResumeRead? || pc.ResumeSweeping? || pc.ResumeRereading? }

  predicate InDismissal(pc: Pc) { pc.Resuming? || pc.Dismissing? || pc.Dismissed? }

  predicate InActing(pc: Pc) { pc.Applying? || pc.Forwarding? || pc.Calling? }

  function RunOpening(cfg: Config, s: State, h: nat, choice: Choice): State
    requires CanRun(cfg, s, h, choice) && InOpening(s.handlers[h].pc)
  {
    var x := s.handlers[h];
    match x.pc
    case Begin => Start(cfg, s, h, choice)
    case Creating(row) => Goto(s.(rows := s.rows[row.id := row]), h, x, Created(row))
    case Created(row) => AfterCreate(cfg, s, h, x, row)
  }

  function RunWait(cfg: Config, s: State, h: nat, x: Handler): State
    requires InWait(x.pc)
  {
    match x.pc
    case WaitReading(id) => Goto(s, h, x, WaitRead(id, Find(s.rows, id)))
    case WaitRead(id, found) => AfterWaitRead(s, h, x, id, found)
    case Testing(id, wake, deadline, rounds) => WaitTest(cfg, s, h, x, id, wake, deadline, rounds)
    case Sleeping(nap) => Goto(s, h, x, Polling(nap))
    case Polling(nap) => Goto(s, h, x, Polled(nap, Find(s.rows, nap.id)))
    case Polled(nap, found) => AfterPoll(s, h, x, nap, found)
  }

  function RunTimeout(s: State, h: nat, x: Handler): State
    requires InTimeout(x.pc)
  {
    match x.pc
    case AutoApproving(id, at) =>
      var rows := Resolved(s.rows, id, true, TIMEOUT_APPROVER, AUTO_APPROVED, at);
      Goto(s.(rows := rows), h, x, Applying(Find(rows, id), false))
    case TimeoutSweeping(id, moment) => Goto(s.(rows := Swept(s.rows, moment)), h, x, TimeoutReading(id))
    case TimeoutReading(id) => Goto(s, h, x, Applying(Find(s.rows, id), false))
  }

  function RunResume(s: State, h: nat, x: Handler): State
    requires InResume(x.pc)
  {
    match x.pc
    case ResumeReading(id) => Goto(s, h, x, ResumeRead(id, Find(s.rows, id)))
    case ResumeRead(id, found) => Goto(s, h, x, Checked(id, found, s.clock))
    case ResumeSweeping(id, moment) => Goto(s.(rows := Swept(s.rows, moment)), h, x, ResumeRereading(id))
    case ResumeRereading(id) => Goto(s, h, x, Resuming(id, Find(s.rows, id)))
  }

  function RunDismissal(s: State, h: nat, x: Handler): State
    requires InDismissal(x.pc)
  {
    match x.pc
    case Resuming(id, found) => Goto(s, h, x, Found(id, found, s.clock))
    case Dismissing(id, seen, at) =>
      var rows := Resolved(s.rows, id, false, CLIENT_APPROVER, ABANDONED, at);
      Goto(s.(rows := rows), h, x, Dismissed(id, seen, Find(rows, id)))
    case Dismissed(id, seen, found) => AfterDismiss(s, h, x, id, seen, found)
  }

  function RunActing(cfg: Config, s: State, h: nat, x: Handler, response: Option<bool>): State
    requires InActing(x.pc)
  {
    match x.pc
    case Applying(found, dismissal) => Goto(s, h, x, Applied(cfg, x, found, dismissal))
    case Forwarding(approval) => Forward(cfg, s, h, x, approval)
    case Calling(approval) => Put(s, h, Received(cfg, x, approval, response))
  }

  function RunNext(cfg: Config, s: State, h: nat, choice: Choice): State
    requires CanRun(cfg, s, h, choice)
  {
    var x := s.handlers[h];
    if InOpening(x.pc) then RunOpening(cfg, s, h, choice)
    else if InWait(x.pc) then RunWait(cfg, s, h, x)
    else if InTimeout(x.pc) then RunTimeout(s, h, x)
    else if InResume(x.pc) then RunResume(s, h, x)
    else if InDismissal(x.pc) then RunDismissal(s, h, x)
    else if InActing(x.pc) then RunActing(cfg, s, h, x, choice.response)
    else Record(cfg, s, h, x, choice.id, x.pc.event, x.pc.reply)
  }

  function Next(cfg: Config, s: State, m: Move): State
    requires Enabled(cfg, s, m)
  {
    match m
    case Tick(to) => s.(clock := to)
    case SweepPage(moment) => s.(rows := Swept(s.rows, moment))
    case Refresh(registry) => s.(registry := registry)
    case Arrive(h, call) => Put(s, h, NewHandler(call))
    case HumanDecides(id, approved, approver, note, at) =>
      s.(rows := Resolved(s.rows, id, approved, approver, note, at),
         notices := s.notices + multiset{id}, named := s.named + {id})
    case Notify(id) =>
      s.(notices := s.notices - multiset{id},
         fired := if id in s.events then s.fired + {s.events[id]} else s.fired)
    case Run(h, choice) => RunNext(cfg, s, h, choice)
  }

  // ---- runs --------------------------------------------------------------------------------

  /** A run: its states, and the moves between them. */
  datatype Trace = Trace(states: seq<State>, moves: seq<Move>)

  /** Move `i` leads from its state to the next. */
  ghost predicate IsStep(cfg: Config, t: Trace, i: nat) {
    && i < |t.moves| && i + 1 < |t.states|
    && Enabled(cfg, t.states[i], t.moves[i]) && t.states[i + 1] == Next(cfg, t.states[i], t.moves[i])
  }

  ghost predicate IsRun(cfg: Config, t: Trace) {
    && |t.states| == |t.moves| + 1
    && Init(t.states[0])
    && forall i: nat | i < |t.moves| :: IsStep(cfg, t, i)
  }

  lemma StepTaken(cfg: Config, t: Trace, i: nat)
    requires IsRun(cfg, t) && i < |t.moves|
    ensures Enabled(cfg, t.states[i], t.moves[i]) && t.states[i + 1] == Next(cfg, t.states[i], t.moves[i])
  {
    assert IsStep(cfg, t, i);
  }

  function Last(t: Trace): State
    requires t.states != []
  {
    t.states[|t.states| - 1]
  }

  /** The run, one move longer. */
  function Extended(cfg: Config, t: Trace, m: Move): Trace
    requires t.states != [] && Enabled(cfg, Last(t), m)
  {
    Trace(t.states + [Next(cfg, Last(t), m)], t.moves + [m])
  }

  /** One run is the beginning of another. */
  predicate Begins(t: Trace, t': Trace) { t.states <= t'.states && t.moves <= t'.moves }

  lemma BeginsTransitive(t: Trace, t': Trace, t'': Trace)
    requires Begins(t, t') && Begins(t', t'')
    ensures Begins(t, t'')
  {
  }

  lemma ExtendedIsRun(cfg: Config, t: Trace, m: Move)
    requires IsRun(cfg, t) && Enabled(cfg, Last(t), m)
    ensures IsRun(cfg, Extended(cfg, t, m)) && Begins(t, Extended(cfg, t, m))
    ensures Last(Extended(cfg, t, m)) == Next(cfg, Last(t), m)
  {
    var t' := Extended(cfg, t, m);
    forall i: nat | i < |t'.moves| ensures IsStep(cfg, t', i) {
      if i < |t.moves| {
        assert IsStep(cfg, t, i);
        assert t'.states[i] == t.states[i] && t'.states[i + 1] == t.states[i + 1] && t'.moves[i] == t.moves[i];
      }
    }
  }
}
