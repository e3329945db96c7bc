/** What a handler's move comes to at each place in its life. */
module ProtocolMoves {
  import opened Wrappers
  import opened Timestamps
  import opened ApprovalStore
  import opened Protocol

  /** Which stretch of its life a handler is in decides what it runs. */
  lemma Dispatch(cfg: Config, s: State, h: nat, choice: Choice)
    requires CanRun(cfg, s, h, choice)
    ensures var x, s' := s.handlers[h], RunNext(cfg, s, h, choice);
            && (InOpening(x.pc) ==> s' == RunOpening(cfg, s, h, choice))
            && (InWait(x.pc) ==> s' == RunWait(cfg, s, h, x))
            && (InTimeout(x.pc) ==> s' == RunTimeout(s, h, x))
            && (InResume(x.pc) ==> s' == RunResume(s, h, x))
            && (InDismissal(x.pc) ==> s' == RunDismissal(s, h, x))
            && (InActing(x.pc) ==> s' == RunActing(cfg, s, h, x, choice.response))
            && (x.pc.Recording? ==> s' == Record(cfg, s, h, x, choice.id, x.pc.event, x.pc.reply))
  {
  }

  /** A move that draws no id and hears from no upstream. */
  const NOTHING := Choice("", None)

  // ---- parking a call -----------------------------------------------------------

  lemma UnknownMove(cfg: Config, s: State, h: nat, choice: Choice)
    requires h in s.handlers && s.handlers[h].pc.Begin? && s.handlers[h].call.tool !in s.registry
    ensures CanRun(cfg, s, h, choice)
    ensures var x := s.handlers[h];
            RunNext(cfg, s, h, choice) == Goto(s, h, x, Recording(UnknownToolEvent(cfg, x.call), NoSuchTool))
  {
    Dispatch(cfg, s, h, choice);
  }

  lemma DirectMove(cfg: Config, s: State, h: nat, choice: Choice)
    requires h in s.handlers && s.handlers[h].pc.Begin? && s.handlers[h].call.tool in s.registry
    requires !NeedsApproval(cfg, s, s.handlers[h].call)
    ensures CanRun(cfg, s, h, choice)
    ensures var x := Admitted(cfg, s.handlers[h], s.registry[s.handlers[h].call.tool]);
            RunNext(cfg, s, h, choice) == Goto(s, h, x, Directly(cfg, x))
  {
    Dispatch(cfg, s, h, choice);
  }

  lemma ParkMove(cfg: Config, s: State, h: nat, choice: Choice)
    requires h in s.handlers && s.handlers[h].pc.Begin? && NeedsApproval(cfg, s, s.handlers[h].call)
    requires Fresh(s, choice.id) && s.clock + cfg.timeout < DAYS * DAY
    ensures CanRun(cfg, s, h, choice)
    ensures var entry := s.registry[s.handlers[h].call.tool];
            var x := Admitted(cfg, s.handlers[h], entry);
            RunNext(cfg, s, h, choice) ==
              Goto(s.(issued := s.issued[choice.id := h]), h, x,
                   Creating(NewRow(cfg, x, entry, x.decision, choice.id, s.clock)))
  {
    Dispatch(cfg, s, h, choice);
  }

  lemma CreateMove(cfg: Config, s: State, h: nat, choice: Choice)
    requires h in s.handlers && s.handlers[h].pc.Creating?
    ensures var row := s.handlers[h].pc.row;
            RunNext(cfg, s, h, choice) == Goto(s.(rows := s.rows[row.id := row]), h, s.handlers[h], Created(row))
  {
    Dispatch(cfg, s, h, choice);
  }

  lemma CreatedMove(cfg: Config, s: State, h: nat, choice: Choice)
    requires h in s.handlers && s.handlers[h].pc.Created?
    ensures RunNext(cfg, s, h, choice) == AfterCreate(cfg, s, h, s.handlers[h], s.handlers[h].pc.row)
  {
    Dispatch(cfg, s, h, choice);
  }

  // ---- reads, sweeps and decisions of a handler -------------------------------------

  /** Handlers about to read row `id`, and where the reading leads. */
  predicate Reads(pc: Pc, id: string) {
    match pc
    case WaitReading(key) => key == id
    case Polling(nap) => nap.id == id
    case TimeoutReading(key) => key == id
    case ResumeReading(key) => key == id
    case ResumeRereading(key) => key == id
    case _ => false
  }

  function AfterRead(pc: Pc, found: Option<Row>): Pc {
    match pc
    case WaitReading(id) => WaitRead(id, found)
    case Polling(nap) => Polled(nap, found)
    case TimeoutReading(_) => Applying(found, false)
    case ResumeReading(id) => ResumeRead(id, found)
    case ResumeRereading(id) => Resuming(id, found)
    case _ => pc
  }

  lemma ReadMove(cfg: Config, s: State, h: nat, choice: Choice, id: string)
    requires h in s.handlers && Reads(s.handlers[h].pc, id)
    ensures RunNext(cfg, s, h, choice) == Goto(s, h, s.handlers[h], AfterRead(s.handlers[h].pc, Find(s.rows, id)))
  {
    Dispatch(cfg, s, h, choice);
  }

  /** Handlers about to sweep, and where the sweep leads. */
  predicate Sweeps(pc: Pc, moment: Time) {
    (pc.TimeoutSweeping? || pc.ResumeSweeping?) && pc.moment == moment
  }

  function AfterSweep(pc: Pc): Pc {
    match pc
    case TimeoutSweeping(id, _) => TimeoutReading(id)
    case ResumeSweeping(id, _) => ResumeRereading(id)
    case _ => pc
  }

  lemma SweepMove(cfg: Config, s: State, h: nat, choice: Choice, moment: Time)
    requires h in s.handlers && Sweeps(s.handlers[h].pc, moment)
    ensures RunNext(cfg, s, h, choice) ==
              Goto(s.(rows := Swept(s.rows, moment)), h, s.handlers[h], AfterSweep(s.handlers[h].pc))
  {
    Dispatch(cfg, s, h, choice);
  }

  /** A decision a handler takes by itself: the timeout's approval, or the dismissal of an abandoned request. */
  predicate Decides(pc: Pc, id: string, approved: bool, approver: string, note: Option<string>, at: Time) {
    match pc
    case AutoApproving(key, time) =>
      key == id && time == at && approved && approver == TIMEOUT_APPROVER && note == AUTO_APPROVED
    case Dismissing(key, _, time) =>
      && key == id && time == at && !approved && approver == CLIENT_APPROVER
      && note == ABANDONED
    case _ => false
  }

  function AfterDecision(pc: Pc, found: Option<Row>): Pc {
    match pc
    case AutoApproving(_, _) => Applying(found, false)
    case Dismissing(id, seen, _) => Dismissed(id, seen, found)
    case _ => pc
  }

  lemma DecisionMove(cfg: Config, s: State, h: nat, choice: Choice, id: string, approved: bool, approver: string,
                     note: Option<string>, at: Time)
    requires h in s.handlers && Decides(s.handlers[h].pc, id, approved, approver, note, at)
    ensures var rows := Resolved(s.rows, id, approved, approver, note, at);
            RunNext(cfg, s, h, choice) ==
              Goto(s.(rows := rows), h, s.handlers[h], AfterDecision(s.handlers[h].pc, Find(rows, id)))
  {
    Dispatch(cfg, s, h, choice);
  }

  // ---- the wait loop ------------------------------------------------------------------

  lemma JoinMove(cfg: Config, s: State, h: nat, choice: Choice)
    requires h in s.handlers && s.handlers[h].pc.WaitRead?
    ensures var x := s.handlers[h];
            var s' := RunNext(cfg, s, h, choice);
            if Answered(x.pc.found) then s' == Goto(s, h, x, Applying(x.pc.found, false))
            else var s1 := WithEvent(s, x.pc.id);
                 s' == Goto(s1, h, x, Testing(x.pc.id, s1.events[x.pc.id], x.pc.found.value.expiresAt, 0))
  {
    Dispatch(cfg, s, h, choice);
  }

  lemma TestMove(cfg: Config, s: State, h: nat, choice: Choice)
    requires h in s.handlers && s.handlers[h].pc.Testing?
    ensures var x := s.handlers[h];
            RunNext(cfg, s, h, choice) == WaitTest(cfg, s, h, x, x.pc.id, x.pc.wake, x.pc.deadline, x.pc.rounds)
  {
    Dispatch(cfg, s, h, choice);
  }

  lemma WakeMove(cfg: Config, s: State, h: nat, choice: Choice)
    requires CanRun(cfg, s, h, choice) && s.handlers[h].pc.Sleeping?
    ensures RunNext(cfg, s, h, choice) == Goto(s, h, s.handlers[h], Polling(s.handlers[h].pc.nap))
  {
    Dispatch(cfg, s, h, choice);
  }

  lemma PollMove(cfg: Config, s: State, h: nat, choice: Choice)
    requires h in s.handlers && s.handlers[h].pc.Polled?
    ensures var x := s.handlers[h]; RunNext(cfg, s, h, choice) == AfterPoll(s, h, x, x.pc.nap, x.pc.found)
  {
    Dispatch(cfg, s, h, choice);
  }

  // ---- retries ----------------------------------------------------------------------------

  lemma CheckMove(cfg: Config, s: State, h: nat, choice: Choice)
    requires h in s.handlers && s.handlers[h].pc.ResumeRead?
    ensures var x := s.handlers[h];
            RunNext(cfg, s, h, choice) == Goto(s, h, x, Checked(x.pc.id, x.pc.found, s.clock))
  {
    Dispatch(cfg, s, h, choice);
  }

  lemma FindMove(cfg: Config, s: State, h: nat, choice: Choice)
    requires h in s.handlers && s.handlers[h].pc.Resuming?
    ensures var x := s.handlers[h];
            RunNext(cfg, s, h, choice) == Goto(s, h, x, Found(x.pc.id, x.pc.found, s.clock))
  {
    Dispatch(cfg, s, h, choice);
  }

  lemma DismissedMove(cfg: Config, s: State, h: nat, choice: Choice)
    requires h in s.handlers && s.handlers[h].pc.Dismissed?
    ensures var x := s.handlers[h];
            RunNext(cfg, s, h, choice) == AfterDismiss(s, h, x, x.pc.id, x.pc.seen, x.pc.found)
  {
    Dispatch(cfg, s, h, choice);
  }

  // ---- acting on the answer ------------------------------------------------------------------

  lemma ApplyMove(cfg: Config, s: State, h: nat, choice: Choice)
    requires h in s.handlers && s.handlers[h].pc.Applying?
    ensures var x := s.handlers[h];
            RunNext(cfg, s, h, choice) == Goto(s, h, x, Applied(cfg, x, x.pc.found, x.pc.dismissal))
  {
    Dispatch(cfg, s, h, choice);
  }

  lemma ForwardMove(cfg: Config, s: State, h: nat, choice: Choice)
    requires h in s.handlers && s.handlers[h].pc.Forwarding?
    ensures var x := s.handlers[h];
            var s' := RunNext(cfg, s, h, choice);
            s' == if x.entry.None? then s else Put(s, h, Onward(cfg, x, x.entry.value, x.pc.approval))
  {
    Dispatch(cfg, s, h, choice);
  }

  lemma ReceiveMove(cfg: Config, s: State, h: nat, choice: Choice)
    requires h in s.handlers && s.handlers[h].pc.Calling?
    ensures RunNext(cfg, s, h, choice)
              == Put(s, h, Received(cfg, s.handlers[h], s.handlers[h].pc.approval, choice.response))
  {
    Dispatch(cfg, s, h, choice);
  }

  lemma RecordMove(cfg: Config, s: State, h: nat, choice: Choice)
    requires h in s.handlers && s.handlers[h].pc.Recording? && choice.id !in s.trail
    ensures CanRun(cfg, s, h, choice)
    ensures var x := s.handlers[h];
            RunNext(cfg, s, h, choice) == Record(cfg, s, h, x, choice.id, x.pc.event, x.pc.reply)
  {
    Dispatch(cfg, s, h, choice);
  }
}
