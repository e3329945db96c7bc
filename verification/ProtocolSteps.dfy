/** What each move of a handler touches, and where it leads. */
module ProtocolSteps {
  import opened Wrappers
  import opened Timestamps
  import opened ApprovalStore
  import opened AuditStore
  import opened Protocol
  import opened ProtocolMoves

  /** The rows after a move of a handler at `pc`. */
  function RowsAfter(rows: Table, pc: Pc): Table {
    match pc
    case Creating(row) => rows[row.id := row]
    case AutoApproving(id, at) =>
      Resolved(rows, id, true, TIMEOUT_APPROVER, AUTO_APPROVED, at)
    case Dismissing(id, _, at) =>
      Resolved(rows, id, false, CLIENT_APPROVER, ABANDONED, at)
    case TimeoutSweeping(_, moment) => Swept(rows, moment)
    case ResumeSweeping(_, moment) => Swept(rows, moment)
    case _ => rows
  }

  /** A handler keeps its call; its entry comes from the registry as it begins, and stays with the decision. */
  ghost predicate Continues(s: State, x: Handler, x': Handler) {
    && x'.call == x.call
    && (if !x.pc.Begin? then x'.entry == x.entry && x'.decision == x.decision
        else if x.call.tool in s.registry then x'.entry == Some(s.registry[x.call.tool])
        else x'.entry == x.entry)
  }

  /** Places before the row is read for good: a handler here has dismissed nothing. */
  predicate Early(pc: Pc) { InOpening(pc) || InWait(pc) || InTimeout(pc) || InResume(pc) || pc.Resuming? }

  /** The outcome of a refusal on a row: apart if the client dismissed the request, else by the row's status. */
  function FiledUnder(row: Row, dismissal: bool): Outcome {
    if dismissal then DismissedByClient else if row.status.Expired? then TimedOut else DeniedByApprover
  }

  /** How a handler gets to the places of the wait loop. */
  ghost predicate LeadsToWait(rows: Table, pc: Pc, pc': Pc) {
    match pc'
    case Testing(id, _, _, rounds) =>
      || (pc.WaitRead? && pc.id == id && !Answered(pc.found) && rounds == 0)
      || (pc.Polled? && pc.nap.id == id && !Answered(pc.found) && rounds == pc.nap.rounds)
    case Sleeping(nap) => pc.Testing? && pc.id == nap.id && nap.rounds == pc.rounds + 1
    case Polling(nap) => pc == Sleeping(nap)
    case Polled(nap, found) => pc == Polling(nap) && found == Find(rows, nap.id)
    case _ => true
  }

  /** How it gets to those of a retry. */
  ghost predicate LeadsToRetry(rows: Table, pc: Pc, pc': Pc) {
    match pc'
    case ResumeReading(_) => pc.Begin?
    case ResumeRead(id, found) => pc == ResumeReading(id) && found == Find(rows, id)
    case ResumeSweeping(id, _) => pc.ResumeRead? && pc.id == id && pc.found.Some?
    case ResumeRereading(id) => pc.ResumeSweeping? && pc.id == id
    case Resuming(id, found) => pc == ResumeRead(id, found) || (pc == ResumeRereading(id) && found == Find(rows, id))
    case Dismissing(id, seen, _) => pc == Resuming(id, Some(seen)) && seen.status.Pending?
    case Dismissed(id, seen, _) => pc.Dismissing? && pc.id == id && pc.seen == seen
    case _ => true
  }

  /** How it gets to acting and answering. */
  ghost predicate LeadsToAnswer(pc: Pc, pc': Pc) {
    match pc'
    case Applying(_, dismissal) => if dismissal then pc.Dismissed? else Early(pc)
    case Recording(_, reply) =>
      reply.Refused? && reply.approval.Some? ==>
        pc.Applying? && pc.found == reply.approval
        && reply.outcome == FiledUnder(reply.approval.value, pc.dismissal)
    case Done(reply) =>
      || (pc.Recording? && pc.reply == reply)
      || (reply.NotOnFile? && pc.Resuming? && pc.found.None?) || (reply.Vanished? && pc.Applying?)
    case _ => true
  }

  ghost predicate Leads(rows: Table, pc: Pc, pc': Pc) {
    && LeadsToWait(rows, pc, pc') && LeadsToRetry(rows, pc, pc') && LeadsToAnswer(pc, pc')
    && (Early(pc') ==> Early(pc)) && (pc'.Creating? ==> pc.Begin?) && !pc'.Begin?
  }

  /** An id is issued where a call sets out to park. */
  function IssuedAfter(issued: map<string, nat>, h: nat, pc': Pc): map<string, nat> {
    if pc'.Creating? then issued[pc'.row.id := h] else issued
  }

  /** The move touches the rows as its place says, the trail only when recording, and no other handler. */
  ghost predicate Touches(s: State, s': State, h: nat) {
    && h in s.handlers && h in s'.handlers && s'.handlers == s.handlers[h := s'.handlers[h]]
    && Continues(s, s.handlers[h], s'.handlers[h])
    && s'.rows == RowsAfter(s.rows, s.handlers[h].pc)
    && Leads(s.rows, s.handlers[h].pc, s'.handlers[h].pc)
    && (s.handlers[h].pc.Recording? || (s'.trail == s.trail && s'.author == s.author))
    && s'.issued == IssuedAfter(s.issued, h, s'.handlers[h].pc)
    && s'.notices == s.notices && s'.clock == s.clock
  }

  /** Moving a handler on, after a change to the rest of the state. */
  lemma GotoTouches(s: State, s1: State, h: nat, x: Handler, pc: Pc)
    requires h in s.handlers && s1.handlers == s.handlers && Continues(s, s.handlers[h], x)
    requires s1.rows == RowsAfter(s.rows, s.handlers[h].pc) && s1.trail == s.trail && s1.author == s.author
    requires s1.issued == IssuedAfter(s.issued, h, pc)
    requires s1.notices == s.notices && s1.clock == s.clock
    requires Leads(s.rows, s.handlers[h].pc, pc)
    ensures Touches(s, Goto(s1, h, x, pc), h)
  {
  }

  lemma OpeningTouches(cfg: Config, s: State, h: nat, choice: Choice)
    requires CanRun(cfg, s, h, choice) && s.handlers[h].pc.Begin?
    ensures Touches(s, RunNext(cfg, s, h, choice), h)
  {
    var x := s.handlers[h];
    if x.call.tool in s.registry {
      AdmittedTouches(cfg, s, h, choice);
    } else {
      UnknownMove(cfg, s, h, choice);
      GotoTouches(s, s, h, x, Recording(UnknownToolEvent(cfg, x.call), NoSuchTool));
    }
  }

  lemma AdmittedTouches(cfg: Config, s: State, h: nat, choice: Choice)
    requires CanRun(cfg, s, h, choice) && s.handlers[h].pc.Begin? && s.handlers[h].call.tool in s.registry
    ensures Touches(s, RunNext(cfg, s, h, choice), h)
  {
    var entry := s.registry[s.handlers[h].call.tool];
    var x := Admitted(cfg, s.handlers[h], entry);
    if NeedsApproval(cfg, s, s.handlers[h].call) {
      ParkMove(cfg, s, h, choice);
      GotoTouches(s, s.(issued := s.issued[choice.id := h]), h, x,
                  Creating(NewRow(cfg, x, entry, x.decision, choice.id, s.clock)));
    } else {
      DirectMove(cfg, s, h, choice);
      GotoTouches(s, s, h, x, Directly(cfg, x));
    }
  }

  lemma CreateTouches(cfg: Config, s: State, h: nat, choice: Choice)
    requires h in s.handlers && s.handlers[h].pc.Creating?
    ensures Touches(s, RunNext(cfg, s, h, choice), h)
  {
    var x := s.handlers[h];
    CreateMove(cfg, s, h, choice);
    GotoTouches(s, s.(rows := s.rows[x.pc.row.id := x.pc.row]), h, x, Created(x.pc.row));
  }

  lemma CreatedTouches(cfg: Config, s: State, h: nat, choice: Choice)
    requires h in s.handlers && s.handlers[h].pc.Created?
    ensures Touches(s, RunNext(cfg, s, h, choice), h)
  {
    var x := s.handlers[h];
    var row := x.pc.row;
    CreatedMove(cfg, s, h, choice);
    GotoTouches(s, s.(events := s.events[row.id := |s.owners|], owners := s.owners + [row.id]), h, x,
                Parked(cfg, x, row));
  }

  lemma ReadTouches(cfg: Config, s: State, h: nat, choice: Choice, id: string)
    requires CanRun(cfg, s, h, choice) && Reads(s.handlers[h].pc, id)
    ensures Touches(s, RunNext(cfg, s, h, choice), h)
  {
    ReadMove(cfg, s, h, choice, id);
    GotoTouches(s, s, h, s.handlers[h], AfterRead(s.handlers[h].pc, Find(s.rows, id)));
  }

  lemma SweepTouches(cfg: Config, s: State, h: nat, choice: Choice, moment: Time)
    requires CanRun(cfg, s, h, choice) && Sweeps(s.handlers[h].pc, moment)
    ensures Touches(s, RunNext(cfg, s, h, choice), h)
  {
    SweepMove(cfg, s, h, choice, moment);
    GotoTouches(s, s.(rows := Swept(s.rows, moment)), h, s.handlers[h], AfterSweep(s.handlers[h].pc));
  }

  lemma DecisionTouches(cfg: Config, s: State, h: nat, choice: Choice, id: string, approved: bool, approver: string,
                        note: Option<string>, at: Time)
    requires CanRun(cfg, s, h, choice) && Decides(s.handlers[h].pc, id, approved, approver, note, at)
    ensures Touches(s, RunNext(cfg, s, h, choice), h)
  {
    var rows := Resolved(s.rows, id, approved, approver, note, at);
    DecisionMove(cfg, s, h, choice, id, approved, approver, note, at);
    GotoTouches(s, s.(rows := rows), h, s.handlers[h], AfterDecision(s.handlers[h].pc, Find(rows, id)));
  }

  lemma JoinTouches(cfg: Config, s: State, h: nat, choice: Choice)
    requires CanRun(cfg, s, h, choice) && s.handlers[h].pc.WaitRead?
    ensures Touches(s, RunNext(cfg, s, h, choice), h)
  {
    var x := s.handlers[h];
    JoinMove(cfg, s, h, choice);
    if Answered(x.pc.found) {
      GotoTouches(s, s, h, x, Applying(x.pc.found, false));
    } else {
      EventTouches(s, h, x.pc.id, x.pc.found.value.expiresAt);
    }
  }

  lemma EventTouches(s: State, h: nat, id: string, deadline: Time)
    requires h in s.handlers && s.handlers[h].pc.WaitRead?
    requires s.handlers[h].pc.id == id && !Answered(s.handlers[h].pc.found)
    ensures var s1 := WithEvent(s, id);
            Touches(s, Goto(s1, h, s.handlers[h], Testing(id, s1.events[id], deadline, 0)), h)
  {
    var s1 := WithEvent(s, id);
    GotoTouches(s, s1, h, s.handlers[h], Testing(id, s1.events[id], deadline, 0));
  }

  lemma TestTouches(cfg: Config, s: State, h: nat, choice: Choice)
    requires CanRun(cfg, s, h, choice) && s.handlers[h].pc.Testing?
    ensures Touches(s, RunNext(cfg, s, h, choice), h)
  {
    var x := s.handlers[h];
    TestMove(cfg, s, h, choice);
    if x.pc.deadline <= s.clock {
      GotoTouches(s, s.(events := s.events - {x.pc.id}), h, x, TimedOutAt(cfg, x.pc.id, s.clock));
    } else {
      GotoTouches(s, s, h, x, Sleeping(NextNap(x.pc.id, x.pc.wake, x.pc.deadline, x.pc.rounds, s.clock)));
    }
  }

  lemma WakeTouches(cfg: Config, s: State, h: nat, choice: Choice)
    requires CanRun(cfg, s, h, choice) && s.handlers[h].pc.Sleeping?
    ensures Touches(s, RunNext(cfg, s, h, choice), h)
  {
    WakeMove(cfg, s, h, choice);
    GotoTouches(s, s, h, s.handlers[h], Polling(s.handlers[h].pc.nap));
  }

  lemma PollTouches(cfg: Config, s: State, h: nat, choice: Choice)
    requires CanRun(cfg, s, h, choice) && s.handlers[h].pc.Polled?
    ensures Touches(s, RunNext(cfg, s, h, choice), h)
  {
    var x := s.handlers[h];
    var nap, found := x.pc.nap, x.pc.found;
    PollMove(cfg, s, h, choice);
    if Answered(found) {
      GotoTouches(s, if found.Some? then s.(events := s.events - {nap.id}) else s, h, x, Applying(found, false));
    } else {
      GotoTouches(s, s, h, x, Testing(nap.id, nap.event, nap.deadline, nap.rounds));
    }
  }

  lemma RetryTouches(cfg: Config, s: State, h: nat, choice: Choice)
    requires CanRun(cfg, s, h, choice)
    requires var pc := s.handlers[h].pc; pc.ResumeRead? || pc.Resuming? || pc.Dismissed?
    ensures Touches(s, RunNext(cfg, s, h, choice), h)
  {
    var x, s' := s.handlers[h], RunNext(cfg, s, h, choice);
    match x.pc
    case ResumeRead(id, found) =>
      CheckMove(cfg, s, h, choice);
      GotoTouches(s, s, h, x, Checked(id, found, s.clock));
    case Resuming(id, found) =>
      FindMove(cfg, s, h, choice);
      GotoTouches(s, s, h, x, Found(id, found, s.clock));
    case Dismissed(_, _, _) =>
      DismissedMove(cfg, s, h, choice);
      GotoTouches(s, s.(events := s'.events, fired := s'.fired), h, x, s'.handlers[h].pc);
  }

  lemma ApplyTouches(cfg: Config, s: State, h: nat, choice: Choice)
    requires CanRun(cfg, s, h, choice) && s.handlers[h].pc.Applying?
    ensures Touches(s, RunNext(cfg, s, h, choice), h)
  {
    var x := s.handlers[h];
    ApplyMove(cfg, s, h, choice);
    GotoTouches(s, s, h, x, Applied(cfg, x, x.pc.found, x.pc.dismissal));
  }

  lemma ForwardTouches(cfg: Config, s: State, h: nat, choice: Choice)
    requires CanRun(cfg, s, h, choice) && s.handlers[h].pc.Forwarding?
    ensures Touches(s, RunNext(cfg, s, h, choice), h)
  {
    var x := s.handlers[h];
    ForwardMove(cfg, s, h, choice);
    if x.entry.None? {
      assert s.handlers == s.handlers[h := x];
    } else {
      var x' := Onward(cfg, x, x.entry.value, x.pc.approval);
      GotoTouches(s, s, h, x', x'.pc);
    }
  }

  lemma ReceiveTouches(cfg: Config, s: State, h: nat, choice: Choice)
    requires CanRun(cfg, s, h, choice) && s.handlers[h].pc.Calling?
    ensures Touches(s, RunNext(cfg, s, h, choice), h)
  {
    var x := s.handlers[h];
    ReceiveMove(cfg, s, h, choice);
    var x' := Received(cfg, x, x.pc.approval, choice.response);
    GotoTouches(s, s, h, x', x'.pc);
  }

  lemma RecordTouches(cfg: Config, s: State, h: nat, choice: Choice)
    requires CanRun(cfg, s, h, choice) && s.handlers[h].pc.Recording?
    ensures Touches(s, RunNext(cfg, s, h, choice), h)
  {
    RecordMove(cfg, s, h, choice);
  }

  lemma RunTouches(cfg: Config, s: State, h: nat, choice: Choice)
    requires CanRun(cfg, s, h, choice)
    ensures Touches(s, RunNext(cfg, s, h, choice), h)
  {
    match s.handlers[h].pc
    case Begin => OpeningTouches(cfg, s, h, choice);
    case Creating(_) => CreateTouches(cfg, s, h, choice);
    case Created(_) => CreatedTouches(cfg, s, h, choice);
    case WaitReading(id) => ReadTouches(cfg, s, h, choice, id);
    case Polling(nap) => ReadTouches(cfg, s, h, choice, nap.id);
    case TimeoutReading(id) => ReadTouches(cfg, s, h, choice, id);
    case ResumeReading(id) => ReadTouches(cfg, s, h, choice, id);
    case ResumeRereading(id) => ReadTouches(cfg, s, h, choice, id);
    case TimeoutSweeping(_, moment) => SweepTouches(cfg, s, h, choice, moment);
    case ResumeSweeping(_, moment) => SweepTouches(cfg, s, h, choice, moment);
    case AutoApproving(id, at) =>
      DecisionTouches(cfg, s, h, choice, id, true, TIMEOUT_APPROVER, AUTO_APPROVED, at);
    case Dismissing(id, _, at) =>
      DecisionTouches(cfg, s, h, choice, id, false, CLIENT_APPROVER, ABANDONED, at);
    case WaitRead(_, _) => JoinTouches(cfg, s, h, choice);
    case Testing(_, _, _, _) => TestTouches(cfg, s, h, choice);
    case Sleeping(_) => WakeTouches(cfg, s, h, choice);
    case Polled(_, _) => PollTouches(cfg, s, h, choice);
    case ResumeRead(_, _) => RetryTouches(cfg, s, h, choice);
    case Resuming(_, _) => RetryTouches(cfg, s, h, choice);
    case Dismissed(_, _, _) => RetryTouches(cfg, s, h, choice);
    case Applying(_, _) => ApplyTouches(cfg, s, h, choice);
    case Forwarding(_) => ForwardTouches(cfg, s, h, choice);
    case Calling(_) => ReceiveTouches(cfg, s, h, choice);
    case Recording(_, _) => RecordTouches(cfg, s, h, choice);
  }
}
