/** What a deadline does, and does not do, to a request: how long it stays pending, and who may still decide it. */
module ProtocolDeadlines {
  import opened Wrappers
  import opened Timestamps
  import opened ApprovalStore
  import opened Protocol
  import opened ProtocolSteps
  import opened ProtocolInvariant
  import opened ProtocolTheorems
  import opened ProtocolOutcomes

  // ---- how long a request stays pending -------------------------------------------

  /** The move decides this request: a human's, the timer's or the client's. */
  predicate DecidesOn(s: State, m: Move, id: string) {
    match m
    case HumanDecides(key, _, _, _, _) => key == id
    case Run(h, _) => h in s.handlers && DecidesAt(s.handlers[h].pc, id)
    case _ => false
  }

  /** The move sweeps, at a moment no earlier than the deadline. */
  predicate SweepsPast(s: State, m: Move, deadline: Time) {
    match m
    case SweepPage(moment) => deadline <= moment
    case Run(h, _) => h in s.handlers && SweepsAt(s.handlers[h].pc, deadline)
    case _ => false
  }

  predicate DecidesAt(pc: Pc, id: string) { (pc.AutoApproving? || pc.Dismissing?) && pc.id == id }

  predicate SweepsAt(pc: Pc, deadline: Time) { (pc.TimeoutSweeping? || pc.ResumeSweeping?) && deadline <= pc.moment }

  predicate IsPending(s: State, id: string) { id in s.rows && s.rows[id].status.Pending? }

  lemma SweepEnds(rows: Table, moment: Time, id: string)
    requires id in rows && rows[id].status.Pending?
    ensures var after := Swept(rows, moment);
            && id in after && after[id].expiresAt == rows[id].expiresAt
            && (after[id].status.Pending? <==> moment < rows[id].expiresAt)
  {
    SweepExpiresExactly(rows, moment);
  }

  /** What ends a request's pendency, as the rows after a handler's move show it. */
  lemma PlaceEnds(rows: Table, pc: Pc, id: string)
    requires id in rows && rows[id].status.Pending? && (pc.Creating? ==> pc.row.id !in rows)
    ensures var after := RowsAfter(rows, pc);
            && id in after && after[id].expiresAt == rows[id].expiresAt
            && (after[id].status.Pending? <==> !DecidesAt(pc, id) && !SweepsAt(pc, rows[id].expiresAt))
  {
    match pc
    case TimeoutSweeping(_, moment) => SweepEnds(rows, moment, id);
    case ResumeSweeping(_, moment) => SweepEnds(rows, moment, id);
    case _ =>
  }

  /** A pending request stays pending through a move, unless the move decides it or sweeps past its deadline. */
  lemma MoveEnds(cfg: Config, s: State, m: Move, id: string)
    requires Inv(cfg, s) && Enabled(cfg, s, m) && IsPending(s, id)
    ensures var s' := Next(cfg, s, m);
            && id in s'.rows && s'.rows[id].expiresAt == s.rows[id].expiresAt
            && (IsPending(s', id) <==> !DecidesOn(s, m, id) && !SweepsPast(s, m, s.rows[id].expiresAt))
  {
    if m.Run? { HandlerEnds(cfg, s, m.h, m.choice, id); } else { EnvironmentEnds(cfg, s, m, id); }
  }

  lemma EnvironmentEnds(cfg: Config, s: State, m: Move, id: string)
    requires Enabled(cfg, s, m) && IsPending(s, id) && !m.Run?
    ensures var s' := Next(cfg, s, m);
            && id in s'.rows && s'.rows[id].expiresAt == s.rows[id].expiresAt
            && (IsPending(s', id) <==> !DecidesOn(s, m, id) && !SweepsPast(s, m, s.rows[id].expiresAt))
  {
    if m.SweepPage? { SweepEnds(s.rows, m.moment, id); }
  }

  lemma HandlerEnds(cfg: Config, s: State, h: nat, choice: Choice, id: string)
    requires Inv(cfg, s) && CanRun(cfg, s, h, choice) && IsPending(s, id)
    ensures var s' := RunNext(cfg, s, h, choice);
            && id in s'.rows && s'.rows[id].expiresAt == s.rows[id].expiresAt
            && (IsPending(s', id) <==>
                  !DecidesOn(s, Run(h, choice), id) && !SweepsPast(s, Run(h, choice), s.rows[id].expiresAt))
  {
    RunTouches(cfg, s, h, choice);
    assert HandlerAt(cfg, s, h);
    PlaceEnds(s.rows, s.handlers[h].pc, id);
  }

  /** Between two moments of the run nobody decides the request, and nobody sweeps past its deadline. */
  ghost predicate LeftAlone(t: Trace, i: nat, j: nat, id: string, deadline: Time) {
    forall k | i <= k < j :: EndsNothing(t, k, id, deadline)
  }

  predicate EndsNothing(t: Trace, k: nat, id: string, deadline: Time) {
    k < |t.moves| && k < |t.states| ==>
      !DecidesOn(t.states[k], t.moves[k], id) && !SweepsPast(t.states[k], t.moves[k], deadline)
  }

  /** A request once pending is pending still exactly if it was left alone: no deadline ends it by itself. */
  lemma {:induction false} PendingExactlyUntil(cfg: Config, t: Trace, i: nat, j: nat, id: string)
    requires IsRun(cfg, t) && i <= j < |t.states| && IsPending(t.states[i], id)
    ensures IsPending(t.states[j], id) <==> LeftAlone(t, i, j, id, t.states[i].rows[id].expiresAt)
    ensures id in t.states[j].rows && t.states[j].rows[id].expiresAt == t.states[i].rows[id].expiresAt
    decreases j
  {
    if i < j {
      var deadline := t.states[i].rows[id].expiresAt;
      PendingExactlyUntil(cfg, t, i, j - 1, id);
      LeftAloneLonger(t, i, j, id, deadline);
      if IsPending(t.states[j - 1], id) {
        PendingThrough(cfg, t, j - 1, id);
      } else {
        SingleAssignment(cfg, t, j - 1, j, id);
      }
    }
  }

  lemma LeftAloneLonger(t: Trace, i: nat, j: nat, id: string, deadline: Time)
    requires i < j
    ensures LeftAlone(t, i, j, id, deadline)
            <==> LeftAlone(t, i, j - 1, id, deadline) && EndsNothing(t, j - 1, id, deadline)
  {
  }

  lemma PendingThrough(cfg: Config, t: Trace, k: nat, id: string)
    requires IsRun(cfg, t) && k < |t.moves| && IsPending(t.states[k], id)
    ensures id in t.states[k + 1].rows && t.states[k + 1].rows[id].expiresAt == t.states[k].rows[id].expiresAt
    ensures IsPending(t.states[k + 1], id) <==> EndsNothing(t, k, id, t.states[k].rows[id].expiresAt)
  {
    RunsKeepInv(cfg, t, k);
    StepTaken(cfg, t, k);
    MoveEnds(cfg, t.states[k], t.moves[k], id);
  }

  // ---- late decisions ------------------------------------------------------------------

  /** Nobody has decided the request between the two moments. */
  ghost predicate Undecided(t: Trace, i: nat, j: nat, id: string) {
    forall k: nat | i <= k < j && k < |t.moves| && k < |t.states| :: !DecidesOn(t.states[k], t.moves[k], id)
  }

  /** Nobody has swept past the deadline between the two moments. */
  ghost predicate Unswept(t: Trace, i: nat, j: nat, deadline: Time) {
    forall k: nat | i <= k < j && k < |t.moves| && k < |t.states| :: !SweepsPast(t.states[k], t.moves[k], deadline)
  }

  /**
   * The first decision on a pending request lands, however late it comes, exactly if nobody has swept past the
   * deadline before it. Whoever decides: a human, the timer or the client.
   */
  lemma FirstDecisionLands(cfg: Config, t: Trace, i: nat, j: nat, id: string)
    requires IsRun(cfg, t) && i <= j < |t.moves| && IsPending(t.states[i], id)
    requires Undecided(t, i, j, id) && DecidesOn(t.states[j], t.moves[j], id)
    ensures Settles(t, j, id) <==> Unswept(t, i, j, t.states[i].rows[id].expiresAt)
  {
    var deadline := t.states[i].rows[id].expiresAt;
    PendingExactlyUntil(cfg, t, i, j, id);
    if Unswept(t, i, j, deadline) {
      forall k: nat | i <= k < j ensures EndsNothing(t, k, id, deadline) {}
      assert LeftAlone(t, i, j, id, deadline);
      PendingThrough(cfg, t, j, id);
    }
    if LeftAlone(t, i, j, id, deadline) {
      forall k: nat | i <= k < j && k < |t.moves| && k < |t.states|
        ensures !SweepsPast(t.states[k], t.moves[k], deadline)
      {
        assert EndsNothing(t, k, id, deadline);
      }
    }
  }

  /** The row as a human approves it. */
  function ApprovedBy(row: Row, approver: string, note: Option<string>, at: Time): Row {
    row.(status := Approved, decidedAt := Some(at), approver := Some(approver), note := note)
  }

  /** The input: a request overdue but not swept can be approved, and its retry goes to the upstream. */
  lemma LateApprovalForwards(cfg: Config, t: Trace, h: nat, call: Call, row: Row, approver: string,
                             note: Option<string>) returns (t': Trace, sent: Sent)
    requires IsRun(cfg, t) && h !in Last(t).handlers && call.tool in Last(t).registry
    requires Last(t).registry[call.tool].upstream in cfg.connections
    requires call.retry == Some(row.id) && Find(Last(t).rows, row.id) == Some(row)
    requires row.status.Pending? && row.expiresAt <= Last(t).clock
    ensures GoesOnToSend(cfg, t, t', h, call, ApprovedBy(row, approver, note, Last(t).clock), sent)
    ensures sent.approval.value.decidedAt.Some? && row.expiresAt <= sent.approval.value.decidedAt.value
  {
    var m := HumanDecides(row.id, true, approver, note, Last(t).clock);
    ExtendedIsRun(cfg, t, m);
    var approved := Extended(cfg, t, m);
    t', sent := ApprovalServesAnyRetry(cfg, approved, h, call, ApprovedBy(row, approver, note, Last(t).clock));
    BeginsTransitive(t, approved, t');
  }

  // ---- when silence is taken for consent ---------------------------------------------------

  /** Handler `h` is about to approve this request because nobody answered. */
  predicate AtTimer(s: State, h: nat, id: string) {
    h in s.handlers && s.handlers[h].pc.AutoApproving? && s.handlers[h].pc.id == id
  }

  /** The timer belongs to the held call that opened the request; it is set only by the option, and never early. */
  lemma TimerIsTheHoldersOwn(cfg: Config, t: Trace, i: nat, h: nat, id: string)
    requires IsRun(cfg, t) && i < |t.states| && AtTimer(t.states[i], h, id)
    ensures var s := t.states[i];
            && cfg.approveOnTimeout && DrawnBy(s, h, id) && id in s.rows
            && s.handlers[h].call.retry.None? && Held(cfg, s.handlers[h])
            && s.rows[id].expiresAt <= s.handlers[h].pc.at
  {
    RunsKeepInv(cfg, t, i);
    assert HandlerAt(cfg, t.states[i], h);
  }

  lemma TimerSettlesItsOwn(cfg: Config, t: Trace, k: nat, id: string)
    requires IsRun(cfg, t) && k < |t.moves| && Settles(t, k, id)
    ensures ActorOf(t.states[k], t.moves[k]) == Timer ==> t.moves[k].Run? && AtTimer(t.states[k], t.moves[k].h, id)
  {
    var m := t.moves[k];
    StepTaken(cfg, t, k);
    if m.Run? { RunTouches(cfg, t.states[k], m.h, m.choice); }
  }

  /** A request whose client was handed a link is never approved by the timer. */
  lemma ElicitedIsNeverAutoApproved(cfg: Config, t: Trace, k: nat, h: nat, id: string)
    requires IsRun(cfg, t) && k < |t.moves| && DrawnBy(t.states[k], h, id)
    requires h in t.states[k].handlers && !Held(cfg, t.states[k].handlers[h])
    requires Settles(t, k, id)
    ensures ActorOf(t.states[k], t.moves[k]) != Timer
  {
    TimerSettlesItsOwn(cfg, t, k, id);
    if ActorOf(t.states[k], t.moves[k]) == Timer { TimerIsTheHoldersOwn(cfg, t, k, t.moves[k].h, id); }
  }

  /**
   * The option applies exactly so far: a held call's timer approves its request if and only if, since it was
   * pending, nobody has decided it and no page or retry has swept past its deadline.
   */
  lemma TimerApprovesExactly(cfg: Config, t: Trace, i: nat, j: nat, h: nat, choice: Choice, id: string)
    requires IsRun(cfg, t) && i <= j < |t.moves| && IsPending(t.states[i], id)
    requires t.moves[j] == Run(h, choice) && AtTimer(t.states[j], h, id)
    ensures var row := t.states[i].rows[id];
            LeftAlone(t, i, j, id, row.expiresAt)
            <==> Settles(t, j, id) && t.states[j + 1].rows[id].status.Approved?
                 && t.states[j + 1].rows[id].approver == Some(TIMEOUT_APPROVER)
  {
    PendingExactlyUntil(cfg, t, i, j, id);
    if IsPending(t.states[j], id) {
      StepTaken(cfg, t, j);
      RunTouches(cfg, t.states[j], h, choice);
    }
  }
}
