/** What holds of every run of the gate, whatever the interleaving. */
module ProtocolTheorems {
  import opened Wrappers
  import opened Engine
  import opened ConfigModels
  import opened Registry
  import opened ApprovalStore
  import opened AuditStore
  import opened Protocol
  import opened ProtocolMoves
  import opened ProtocolSteps
  import opened ProtocolInvariant

  // ---- rows are assigned once ---------------------------------------------------

  lemma EvolvesTransitive(a: Table, b: Table, c: Table)
    requires Evolves(a, b) && Evolves(b, c)
    ensures Evolves(a, c)
  {
  }

  lemma MoveEvolves(cfg: Config, s: State, m: Move)
    requires Inv(cfg, s) && Enabled(cfg, s, m)
    ensures Evolves(s.rows, Next(cfg, s, m).rows) && s.clock <= Next(cfg, s, m).clock
  {
    if m.Run? {
      assert HandlerAt(cfg, s, m.h);
      RunOk(cfg, s, m.h, m.choice);
    } else {
      EnvironmentOk(cfg, s, m, 0);
    }
  }

  /** Along a run no row is lost, no request changes and no decision is ever replaced; and time never goes back. */
  lemma {:induction false} RowsEvolveAlong(cfg: Config, t: Trace, i: nat, j: nat)
    requires IsRun(cfg, t) && i <= j < |t.states|
    ensures Evolves(t.states[i].rows, t.states[j].rows) && t.states[i].clock <= t.states[j].clock
    decreases j
  {
    if i < j {
      RowsEvolveAlong(cfg, t, i, j - 1);
      RunsKeepInv(cfg, t, j - 1);
      StepTaken(cfg, t, j - 1);
      MoveEvolves(cfg, t.states[j - 1], t.moves[j - 1]);
      EvolvesTransitive(t.states[i].rows, t.states[j - 1].rows, t.states[j].rows);
    }
  }

  /** Move `i` takes the row from pending to resolved. */
  predicate Settles(t: Trace, i: nat, id: string) {
    && i + 1 < |t.states| && id in t.states[i].rows && id in t.states[i + 1].rows
    && t.states[i].rows[id].status.Pending? && t.states[i + 1].rows[id].status.IsResolved()
  }

  /** A resolved row is final; so at most one move of a run settles it. */
  lemma SingleAssignment(cfg: Config, t: Trace, i: nat, j: nat, id: string)
    requires IsRun(cfg, t) && i <= j < |t.states|
    ensures id in t.states[i].rows && t.states[i].rows[id].status.IsResolved() ==>
              id in t.states[j].rows && t.states[j].rows[id] == t.states[i].rows[id]
    ensures Settles(t, i, id) && Settles(t, j, id) ==> i == j
  {
    RowsEvolveAlong(cfg, t, i, j);
    if i < j { RowsEvolveAlong(cfg, t, i + 1, j); }
  }

  // ---- agreement ---------------------------------------------------------------------

  /** Handler `h` has settled on the row it is about to act on. */
  predicate ActsOn(s: State, h: nat, row: Row) {
    h in s.handlers && s.handlers[h].pc.Applying? && s.handlers[h].pc.found == Some(row)
  }

  /** Who acts on a row acts on the stored decision, and that is the decision the run ends with. */
  lemma ActingMeansFinal(cfg: Config, t: Trace, i: nat, h: nat, row: Row)
    requires IsRun(cfg, t) && i < |t.states| && ActsOn(t.states[i], h, row)
    ensures row.status.IsResolved() && row.id in Last(t).rows && Last(t).rows[row.id] == row
  {
    RunsKeepInv(cfg, t, i);
    assert HandlerAt(cfg, t.states[i], h);
    assert StandingRow(cfg, t.states[i], h, t.states[i].handlers[h], row);
    SingleAssignment(cfg, t, i, |t.states| - 1, row.id);
  }

  /** Everyone who acts on an approval, whenever they do, acts on one and the same resolved row. */
  lemma Agreement(cfg: Config, t: Trace, i: nat, j: nat, h: nat, g: nat, a: Row, b: Row)
    requires IsRun(cfg, t) && i < |t.states| && j < |t.states|
    requires ActsOn(t.states[i], h, a) && ActsOn(t.states[j], g, b) && a.id == b.id
    ensures a == b && a.status.IsResolved()
  {
    ActingMeansFinal(cfg, t, i, h, a);
    ActingMeansFinal(cfg, t, j, g, b);
  }

  /** A handler never finds its approval gone, and acts only on a row that is settled. */
  lemma NothingVanishes(cfg: Config, t: Trace, i: nat, h: nat)
    requires IsRun(cfg, t) && i < |t.states| && h in t.states[i].handlers
    ensures t.states[i].handlers[h].pc != Done(Vanished)
    ensures t.states[i].handlers[h].pc.Applying? ==>
              exists row :: ActsOn(t.states[i], h, row) && row.status.IsResolved()
  {
    RunsKeepInv(cfg, t, i);
    assert HandlerAt(cfg, t.states[i], h);
    var pc := t.states[i].handlers[h].pc;
    if pc.Applying? { assert ActsOn(t.states[i], h, pc.found.value); }
  }

  // ---- the wait loop ---------------------------------------------------------------------

  /**
   * A wait begins at most ceil(timeout / POLL) sleeps; whenever one is looked at, it ends within a poll interval
   * and by the deadline; and one cut short by its event is followed by a poll that finds the row resolved, so no
   * sleep is ever shorter than its interval in vain.
   */
  lemma WaitIsBounded(cfg: Config, t: Trace, i: nat, h: nat, nap: Nap)
    requires IsRun(cfg, t) && i < |t.states| && h in t.states[i].handlers
    requires var pc := t.states[i].handlers[h].pc;
             pc == Sleeping(nap) || pc == Polling(nap) || (pc.Polled? && pc.nap == nap)
    ensures nap.rounds <= (cfg.timeout + POLL - 1) / POLL
    ensures nap.wakeAt <= t.states[i].clock + POLL && nap.wakeAt <= nap.deadline
    ensures var pc := t.states[i].handlers[h].pc;
            pc.Polled? ==> pc.found.Some? && (pc.found.value.status.Pending? ==> nap.wakeAt <= t.states[i].clock)
  {
    RunsKeepInv(cfg, t, i);
    assert HandlerAt(cfg, t.states[i], h);
    assert NapOk(cfg, t.states[i], h, t.states[i].handlers[h], nap);
    RoundsBound(nap.rounds, cfg.timeout);
  }

  /** The sleeps a wait has begun. */
  function SleepsBegun(pc: Pc): nat {
    match pc
    case Testing(_, _, _, rounds) => rounds
    case Sleeping(nap) => nap.rounds
    case Polling(nap) => nap.rounds
    case Polled(nap, _) => nap.rounds
    case _ => 0
  }

  /** The handler is in the wait loop, or about to enter it, for this approval. */
  predicate WaitsFor(s: State, h: nat, id: string) {
    h in s.handlers
    && match s.handlers[h].pc
       case WaitReading(key) => key == id
       case WaitRead(key, _) => key == id
       case Testing(key, _, _, _) => key == id
       case Sleeping(nap) => nap.id == id
       case Polling(nap) => nap.id == id
       case Polled(nap, _) => nap.id == id
       case _ => false
  }

  /** A wait that can begin no sleep beyond its `last`. */
  predicate Winding(s: State, h: nat, id: string, last: nat) {
    h in s.handlers
    && (WaitsFor(s, h, id) ==>
          var pc := s.handlers[h].pc;
          && SleepsBegun(pc) <= last
          && (pc.Testing? || (pc.Polled? && !Answered(pc.found)) ==> SleepsBegun(pc) < last))
  }

  lemma MoveKeepsWinding(cfg: Config, s: State, m: Move, h: nat, id: string, last: nat)
    requires Enabled(cfg, s, m) && StoredResolved(s, id) && Winding(s, h, id, last) && last > 0
    ensures Winding(Next(cfg, s, m), h, id, last)
  {
    if m.Run? {
      RunTouches(cfg, s, m.h, m.choice);
      if m.h == h { StepKeepsWinding(s, Next(cfg, s, m), h, id, last); }
    }
  }

  lemma StepKeepsWinding(s: State, s': State, h: nat, id: string, last: nat)
    requires Touches(s, s', h) && StoredResolved(s, id) && Winding(s, h, id, last) && last > 0
    ensures Winding(s', h, id, last)
  {
  }

  /** Waiters notice: once its row is resolved, a wait begins at most one more sleep. */
  lemma {:induction false} WaitersNotice(cfg: Config, t: Trace, i: nat, j: nat, h: nat, id: string)
    requires IsRun(cfg, t) && i <= j < |t.states| && StoredResolved(t.states[i], id) && WaitsFor(t.states[i], h, id)
    ensures Winding(t.states[j], h, id, SleepsBegun(t.states[i].handlers[h].pc) + 1)
    ensures WaitsFor(t.states[j], h, id) ==>
              SleepsBegun(t.states[j].handlers[h].pc) <= SleepsBegun(t.states[i].handlers[h].pc) + 1
    decreases j
  {
    if i < j {
      WaitersNotice(cfg, t, i, j - 1, h, id);
      SingleAssignment(cfg, t, i, j - 1, id);
      StepTaken(cfg, t, j - 1);
      MoveKeepsWinding(cfg, t.states[j - 1], t.moves[j - 1], h, id, SleepsBegun(t.states[i].handlers[h].pc) + 1);
    }
  }

  lemma RoundsBound(rounds: nat, timeout: nat)
    requires (rounds - 1) * POLL < timeout
    ensures rounds <= (timeout + POLL - 1) / POLL
  {
  }

  // ---- justified forwarding -----------------------------------------------------------------

  /** Every upstream call was made on the policy's word for this very request, or on an approved row. */
  lemma ForwardingIsJustified(cfg: Config, policy: Policy, patterns: seq<string>, t: Trace, i: nat, h: nat, sent: Sent)
    requires Deploys(cfg, policy, patterns)
    requires IsRun(cfg, t) && i < |t.states| && h in t.states[i].handlers && sent in t.states[i].handlers[h].sent
    ensures var x := t.states[i].handlers[h];
            && x.entry.Some? && sent.upstream == x.entry.value.upstream && sent.tool == x.entry.value.remoteName
            && sent.arguments == x.call.arguments
            && x.decision == Decide(RequestOf(x.call, x.entry.value), policy)
            && match sent.approval
               case None => x.call.retry.None? && x.decision.action == Allow
               case Some(row) =>
                 row.status.Approved? && row.id in Last(t).rows && Last(t).rows[row.id] == row
                 && (x.call.retry == Some(row.id)
                     || (x.call.retry.None? && DrawnBy(t.states[i], h, row.id)
                         && x.decision.action == RequireApproval
                         && row.tool == x.call.tool && row.arguments == x.call.arguments
                         && row.upstream == sent.upstream))
  {
    RunsKeepInv(cfg, t, i);
    assert HandlerAt(cfg, t.states[i], h);
    assert SentOk(cfg, t.states[i], h, t.states[i].handlers[h], sent);
    if sent.approval.Some? { SingleAssignment(cfg, t, i, |t.states| - 1, sent.approval.value.id); }
  }

  /** A held call is released by the row it opened itself; so no two of them, however alike, share an approval. */
  lemma HeldCallsNeverShare(cfg: Config, t: Trace, i: nat, h: nat, g: nat, a: Sent, b: Sent)
    requires IsRun(cfg, t) && i < |t.states| && h in t.states[i].handlers && g in t.states[i].handlers
    requires t.states[i].handlers[h].call.retry.None? && t.states[i].handlers[g].call.retry.None?
    requires a in t.states[i].handlers[h].sent && b in t.states[i].handlers[g].sent
    requires a.approval.Some? && b.approval.Some? && a.approval.value.id == b.approval.value.id
    ensures h == g && a == b
  {
    var s := t.states[i];
    RunsKeepInv(cfg, t, i);
    assert HandlerAt(cfg, s, h) && HandlerAt(cfg, s, g);
    assert SentOk(cfg, s, h, s.handlers[h], a) && SentOk(cfg, s, g, s.handlers[g], b);
  }

  /** The move approves the row: a human's decision, or the timeout where the configuration lets it approve. */
  predicate Approves(cfg: Config, s: State, m: Move, id: string) {
    || (m.HumanDecides? && m.id == id && m.approved)
    || (cfg.approveOnTimeout && m.Run? && m.h in s.handlers
        && s.handlers[m.h].pc.AutoApproving? && s.handlers[m.h].pc.id == id)
  }

  predicate IsApproved(s: State, id: string) { id in s.rows && s.rows[id].status.Approved? }

  /** Only an approval approves: never a retry, a dismissal, a sweep or the opening of a request. */
  lemma OnlyApprovalApproves(cfg: Config, s: State, m: Move, id: string)
    requires Inv(cfg, s) && Enabled(cfg, s, m)
    requires !IsApproved(s, id) && IsApproved(Next(cfg, s, m), id)
    ensures Approves(cfg, s, m, id) && id in s.rows && s.rows[id].status.Pending?
    ensures m.HumanDecides? ==> Next(cfg, s, m).rows[id].approver == Some(m.approver)
  {
    if m.Run? {
      RunApproves(cfg, s, m.h, m.choice, id);
    }
  }

  lemma RunApproves(cfg: Config, s: State, h: nat, choice: Choice, id: string)
    requires Inv(cfg, s) && CanRun(cfg, s, h, choice)
    requires !IsApproved(s, id) && IsApproved(RunNext(cfg, s, h, choice), id)
    ensures Approves(cfg, s, Run(h, choice), id) && id in s.rows && s.rows[id].status.Pending?
  {
    assert HandlerAt(cfg, s, h);
    RunTouches(cfg, s, h, choice);
  }

  /** An approved row was approved by exactly one move of the run, unless it was stored approved at the start. */
  lemma {:induction false} ApprovalHasOneCause(cfg: Config, t: Trace, j: nat, id: string)
    requires IsRun(cfg, t) && j < |t.states|
    requires IsApproved(t.states[j], id) && !IsApproved(t.states[0], id)
    ensures exists i | 0 <= i < j ::
              && Settles(t, i, id) && Approves(cfg, t.states[i], t.moves[i], id)
              && forall k | 0 <= k < |t.moves| && Settles(t, k, id) :: k == i
    decreases j
  {
    var i := j - 1;
    RunsKeepInv(cfg, t, i);
    if IsApproved(t.states[i], id) {
      ApprovalHasOneCause(cfg, t, i, id);
    } else {
      StepTaken(cfg, t, i);
      OnlyApprovalApproves(cfg, t.states[i], t.moves[i], id);
      assert Settles(t, i, id);
      forall k | 0 <= k < |t.moves| && Settles(t, k, id) ensures k == i {
        if k < i { SingleAssignment(cfg, t, k, i, id); } else { SingleAssignment(cfg, t, i, k, id); }
      }
    }
  }

  /** A row resolved during the run was resolved by one move of it, and is as that move left it. */
  lemma {:induction false} ResolutionHasOneCause(cfg: Config, t: Trace, j: nat, id: string) returns (k: nat)
    requires IsRun(cfg, t) && j < |t.states| && StoredResolved(t.states[j], id) && !StoredResolved(t.states[0], id)
    ensures k < j && Settles(t, k, id) && t.states[k + 1].rows[id] == t.states[j].rows[id]
    decreases j
  {
    k := j - 1;
    if StoredResolved(t.states[k], id) {
      k := ResolutionHasOneCause(cfg, t, j - 1, id);
      SingleAssignment(cfg, t, j - 1, j, id);
    } else {
      ResolvedAt(cfg, t, k, id);
    }
  }

  lemma ResolvedAt(cfg: Config, t: Trace, k: nat, id: string)
    requires IsRun(cfg, t) && k < |t.moves| && !StoredResolved(t.states[k], id) && StoredResolved(t.states[k + 1], id)
    ensures Settles(t, k, id)
  {
    RunsKeepInv(cfg, t, k);
    StepTaken(cfg, t, k);
    ResolvesOnlyPending(cfg, t.states[k], t.moves[k], id);
  }

  /** No row enters the table resolved. */
  lemma ResolvesOnlyPending(cfg: Config, s: State, m: Move, id: string)
    requires Inv(cfg, s) && Enabled(cfg, s, m) && !StoredResolved(s, id) && StoredResolved(Next(cfg, s, m), id)
    ensures id in s.rows && s.rows[id].status.Pending?
  {
    if m.Run? {
      RunTouches(cfg, s, m.h, m.choice);
      assert HandlerAt(cfg, s, m.h);
    }
  }

  /** With fail-open off, a forward on an approval goes back to a human who clicked approve while it was pending. */
  lemma SilenceIsNotConsent(cfg: Config, t: Trace, j: nat, h: nat, sent: Sent)
    requires !cfg.approveOnTimeout
    requires IsRun(cfg, t) && j < |t.states| && h in t.states[j].handlers && sent in t.states[j].handlers[h].sent
    requires sent.approval.Some? && !IsApproved(t.states[0], sent.approval.value.id)
    ensures exists i | 0 <= i < j ::
              && t.moves[i].HumanDecides? && t.moves[i].approved && t.moves[i].id == sent.approval.value.id
              && Settles(t, i, sent.approval.value.id)
              && sent.approval.value.approver == Some(t.moves[i].approver)
  {
    var id := sent.approval.value.id;
    SentOnApproval(cfg, t, j, h, sent);
    ApprovalHasOneCause(cfg, t, j, id);
    var i :| 0 <= i < j && Settles(t, i, id) && Approves(cfg, t.states[i], t.moves[i], id);
    ApproverOnRow(cfg, t, i, id);
    SingleAssignment(cfg, t, i + 1, j, id);
  }

  lemma SentOnApproval(cfg: Config, t: Trace, j: nat, h: nat, sent: Sent)
    requires IsRun(cfg, t) && j < |t.states| && h in t.states[j].handlers && sent in t.states[j].handlers[h].sent
    requires sent.approval.Some?
    ensures IsApproved(t.states[j], sent.approval.value.id)
    ensures t.states[j].rows[sent.approval.value.id] == sent.approval.value
  {
    RunsKeepInv(cfg, t, j);
    assert HandlerAt(cfg, t.states[j], h);
    assert SentOk(cfg, t.states[j], h, t.states[j].handlers[h], sent);
  }

  /** A human's approval of a pending row puts the approver on it. */
  lemma ApproverOnRow(cfg: Config, t: Trace, i: nat, id: string)
    requires !cfg.approveOnTimeout && IsRun(cfg, t) && i < |t.moves|
    requires Settles(t, i, id) && Approves(cfg, t.states[i], t.moves[i], id)
    ensures t.moves[i].HumanDecides? && t.states[i + 1].rows[id].approver == Some(t.moves[i].approver)
  {
    StepTaken(cfg, t, i);
  }

  // ---- exactly-once audit -----------------------------------------------------------------------

  /** The events a handler has written. */
  ghost function EventsBy(s: State, h: nat): set<string> { set e | e in s.author && s.author[e] == h }

  /** The event tells whose call it was, and nothing of its arguments but what is left of them redacted. */
  ghost predicate ReportsCall(cfg: Config, x: Handler, event: AuditEvent) {
    && event.tool == x.call.tool && event.clientName == x.call.clientName
    && event.arguments == cfg.redact(x.call.arguments)
    && (x.entry.Some? ==> event.upstream == x.entry.value.upstream)
    && (x.entry.None? ==> SeemsToBelong(x.call.tool, event.upstream))
  }

  /** An unregistered name seems to belong to what stands before its first separator, if anything does. */
  ghost predicate SeemsToBelong(name: string, upstream: string) {
    (exists tool :: IsSplit(name, upstream, tool))
    || (upstream == "unknown" && forall u, tool :: !IsSplit(name, u, tool))
  }

  ghost predicate IsSplit(name: string, upstream: string, tool: string) {
    && name == upstream + "__" + tool && upstream != "" && tool != ""
    && !HasSeparator(upstream) && !EndsInUnderscore(upstream)
  }

  /** It tells what became of the call. */
  predicate ReportsReply(event: AuditEvent, reply: Reply) {
    match reply
    case NoSuchTool => event.outcome == UnknownTool && event.resultStatus == Some(ResultError)
    case Refused(outcome, _) => event.outcome == outcome && event.resultStatus == Some(ResultError)
    case Unavailable => event.outcome == Error && event.resultStatus == Some(ResultError)
    case Returned(true) => event.outcome == Forwarded && event.resultStatus == Some(ResultError)
    case Returned(false) => event.outcome == Forwarded && event.resultStatus == Some(ResultOk)
    case InputRequired(_) => event.outcome == AwaitingApproval && event.resultStatus == None
    case _ => true
  }

  /** It tells the decision, or that the upstream was not connected or the tool not registered. */
  predicate ReportsDecision(x: Handler, event: AuditEvent, reply: Reply) {
    if reply.NoSuchTool? then
      && event.action == Deny && event.decisionSource == ByDefault && event.ruleIndex == None
      && event.decisionReason == Some("tool is not registered")
    else
      && event.decisionSource == x.decision.source
      && if reply.Unavailable? && x.sent == [] then
           event.action == Deny && event.decisionReason == Some("upstream unavailable") && event.ruleIndex == None
         else
           && event.action == x.decision.action && event.decisionReason == x.decision.reason
           && event.ruleIndex == x.decision.ruleIndex
  }

  /** It names the approval the call was refused, parked or sent on, and who decided that. */
  predicate ReportsApproval(x: Handler, event: AuditEvent, reply: Reply) {
    match reply
    case Refused(_, Some(row)) => event.approvalId == Some(row.id) && event.approver == row.approver
    case InputRequired(row) => event.approvalId == Some(row.id) && event.approver == row.approver
    case _ =>
      if x.sent != [] && x.sent[0].approval.Some? then
        && event.approvalId == Some(x.sent[0].approval.value.id)
        && event.approver == x.sent[0].approval.value.approver
      else event.approvalId == None && event.approver == None
  }

  ghost predicate Reports(cfg: Config, x: Handler, event: AuditEvent, reply: Reply) {
    && ReportsCall(cfg, x, event) && ReportsReply(event, reply)
    && ReportsDecision(x, event, reply) && ReportsApproval(x, event, reply)
  }

  /** Field by field, the event a call must leave says all that. */
  lemma TellingIsReporting(cfg: Config, x: Handler, event: AuditEvent, reply: Reply)
    requires DecisionOk(cfg, x) && (reply.NoSuchTool? <==> x.entry.None?)
    requires reply.NoSuchTool? || (reply.Refused? && reply.approval.None?) ==> x.sent == []
    requires reply.Refused? || reply.InputRequired? ==> x.sent == []
    requires Tells(cfg, x, event, reply) && !reply.NotOnFile? && !reply.Vanished?
    ensures Reports(cfg, x, event, reply)
  {
    if x.entry.None? { UpstreamSeems(x.call.tool); }
  }

  lemma UpstreamSeems(name: string)
    ensures SeemsToBelong(name, UpstreamOf(name))
  {
    match SplitNamespace(name)
    case Some((upstream, tool)) =>
      NamespaceUndoesSplit(name);
      assert IsSplit(name, upstream, tool);
    case None =>
      forall u, tool ensures !IsSplit(name, u, tool) {
        if IsSplit(name, u, tool) { SplitUndoesNamespace(u, tool); }
      }
  }

  /**
   * A finished call has left exactly one event, new to the trail, that says what its client was told; none if
   * auditing is off or it was a retry naming no stored approval. It reached an upstream at most once.
   */
  lemma ExactlyOneEvent(cfg: Config, t: Trace, i: nat, h: nat)
    requires IsRun(cfg, t) && i < |t.states| && h in t.states[i].handlers && t.states[i].handlers[h].pc.Done?
    ensures var s := t.states[i];
            var x := s.handlers[h];
            && |x.sent| <= 1
            && |EventsBy(s, h)| == (if cfg.auditOn && !x.pc.reply.NotOnFile? then 1 else 0)
            && forall e | e in EventsBy(s, h) ::
                 e in s.trail && Tells(cfg, x, s.trail[e], x.pc.reply) && Reports(cfg, x, s.trail[e], x.pc.reply)
  {
    var s := t.states[i];
    RunsKeepInv(cfg, t, i);
    assert HandlerAt(cfg, s, h);
    forall e | e in EventsBy(s, h) ensures Reports(cfg, s.handlers[h], s.trail[e], s.handlers[h].pc.reply) {
      assert ReplyOk(cfg, s, h, s.handlers[h], s.handlers[h].pc.reply);
      TellingIsReporting(cfg, s.handlers[h], s.trail[e], s.handlers[h].pc.reply);
    }
    var wrote := s.handlers[h].wrote;
    if wrote == [] {
      assert EventsBy(s, h) == {};
    } else {
      assert wrote == [wrote[0]];
      assert EventsBy(s, h) == {wrote[0]};
    }
  }

  /** Every entry of the one trail is in the other, unchanged. */
  ghost predicate Extends(trail: Trail, trail': Trail) {
    forall e | e in trail :: e in trail' && trail'[e] == trail[e]
  }

  lemma MoveExtendsTrail(cfg: Config, s: State, m: Move)
    requires Enabled(cfg, s, m)
    ensures Extends(s.trail, Next(cfg, s, m).trail)
    ensures forall e | e in Next(cfg, s, m).author :: e in s.author || e !in s.trail
    ensures forall e | e in s.author && e in s.trail ::
              e in Next(cfg, s, m).author && Next(cfg, s, m).author[e] == s.author[e]
    ensures forall e | e in Next(cfg, s, m).trail :: e in s.trail || e in Next(cfg, s, m).author
  {
    if m.Run? {
      RunTouches(cfg, s, m.h, m.choice);
      if s.handlers[m.h].pc.Recording? { RecordMove(cfg, s, m.h, m.choice); }
    }
  }

  /** No event is ever lost or rewritten. */
  lemma {:induction false} TrailOnlyGrows(cfg: Config, t: Trace, i: nat, j: nat)
    requires IsRun(cfg, t) && i <= j < |t.states|
    ensures Extends(t.states[i].trail, t.states[j].trail)
    decreases j
  {
    if i < j {
      TrailOnlyGrows(cfg, t, i, j - 1);
      StepTaken(cfg, t, j - 1);
      MoveExtendsTrail(cfg, t.states[j - 1], t.moves[j - 1]);
    }
  }

  /** An event keeps its author, and one written since takes the place of none that was there. */
  lemma {:induction false} EventsAreNew(cfg: Config, t: Trace, i: nat, j: nat)
    requires IsRun(cfg, t) && i <= j < |t.states|
    ensures forall e | e in t.states[i].author ::
              e in t.states[j].author && t.states[j].author[e] == t.states[i].author[e]
    ensures forall e | e in t.states[j].author && e !in t.states[i].author :: e !in t.states[i].trail
    decreases j
  {
    if i < j {
      EventsAreNew(cfg, t, i, j - 1);
      TrailOnlyGrows(cfg, t, i, j - 1);
      RunsKeepInv(cfg, t, j - 1);
      StepTaken(cfg, t, j - 1);
      MoveExtendsTrail(cfg, t.states[j - 1], t.moves[j - 1]);
    }
  }

  /** Every event of the trail was there at the start or has an author. */
  lemma {:induction false} TrailIsAuthored(cfg: Config, t: Trace, i: nat)
    requires IsRun(cfg, t) && i < |t.states|
    ensures forall e | e in t.states[i].trail :: e in t.states[0].trail || e in t.states[i].author
    decreases i
  {
    if i > 0 {
      TrailIsAuthored(cfg, t, i - 1);
      EventsAreNew(cfg, t, i - 1, i);
      StepTaken(cfg, t, i - 1);
      MoveExtendsTrail(cfg, t.states[i - 1], t.moves[i - 1]);
    }
  }

  /** The calls that have been answered, retries of approvals not on file aside. */
  ghost function CallsOnRecord(s: State): set<nat> {
    set h | h in s.handlers && s.handlers[h].pc.Done? && !s.handlers[h].pc.reply.NotOnFile?
  }

  /** What `count` counts: the events found at the start and, with auditing on, one for each answered call. */
  lemma TrailCountsCalls(cfg: Config, t: Trace, i: nat)
    requires IsRun(cfg, t) && i < |t.states|
    ensures |t.states[i].trail| == |t.states[0].trail| + (if cfg.auditOn then |CallsOnRecord(t.states[i])| else 0)
  {
    var s := t.states[i];
    RunsKeepInv(cfg, t, i);
    TrailIsAuthored(cfg, t, i);
    TrailOnlyGrows(cfg, t, 0, i);
    EventsAreNew(cfg, t, 0, i);
    assert s.trail.Keys == t.states[0].trail.Keys + s.author.Keys;
    AuthorsAreAnswered(cfg, s);
  }

  lemma AuthorsAreAnswered(cfg: Config, s: State)
    requires Inv(cfg, s)
    ensures |s.author.Keys| == if cfg.auditOn then |CallsOnRecord(s)| else 0
  {
    forall e | e in s.author ensures cfg.auditOn && s.author[e] in CallsOnRecord(s) {
      assert HandlerAt(cfg, s, s.author[e]);
    }
    if cfg.auditOn {
      forall h | h in CallsOnRecord(s) ensures exists e :: e in s.author.Keys && s.author[e] == h {
        assert HandlerAt(cfg, s, h);
        assert s.handlers[h].wrote[0] in s.handlers[h].wrote;
      }
      SameSize(s.author.Keys, CallsOnRecord(s), s.author);
    } else {
      assert s.author.Keys == {};
    }
  }

  ghost function ForwardedEvents(s: State): set<string> {
    set e | e in s.author && e in s.trail && s.trail[e].outcome == Forwarded
  }

  ghost function CallsReturned(s: State): set<nat> { set h | h in s.handlers && s.handlers[h].returned }

  /** Handlers whose upstream call returned and whose event is not yet in the table. */
  ghost function StillRecording(s: State): set<nat> {
    set h | h in s.handlers && s.handlers[h].returned && s.handlers[h].pc.Recording?
  }

  /** With auditing on, forwarded events and returned upstream calls balance in every state. */
  lemma ForwardedEventsBalance(cfg: Config, t: Trace, i: nat)
    requires IsRun(cfg, t) && i < |t.states| && cfg.auditOn
    ensures var s := t.states[i];
            |ForwardedEvents(s)| + |StillRecording(s)| == |CallsReturned(s)|
  {
    var s := t.states[i];
    RunsKeepInv(cfg, t, i);
    var recorded := CallsReturned(s) - StillRecording(s);
    forall h | h in recorded ensures |s.handlers[h].wrote| == 1 && s.handlers[h].wrote[0] in ForwardedEvents(s)
                                    && s.author[s.handlers[h].wrote[0]] == h
    {
      assert HandlerAt(cfg, s, h);
      var x := s.handlers[h];
      assert x.pc.Done? && |x.wrote| == 1;
      assert x.wrote[0] in x.wrote;
    }
    forall e | e in ForwardedEvents(s) ensures s.author[e] in recorded {
      assert HandlerAt(cfg, s, s.author[e]);
    }
    SameSize(ForwardedEvents(s), recorded, s.author);
    assert StillRecording(s) <= CallsReturned(s);
  }

  /** A bijection between finite sets, given as a map one way. */
  lemma {:induction false} SameSize(events: set<string>, handlers: set<nat>, author: map<string, nat>)
    requires forall e | e in events :: e in author && author[e] in handlers
    requires forall e, f | e in events && f in events && author[e] == author[f] :: e == f
    requires forall h | h in handlers :: exists e :: e in events && author[e] == h
    ensures |events| == |handlers|
    decreases events
  {
    if events == {} {
      assert handlers == {};
    } else {
      var e :| e in events;
      SameSize(events - {e}, handlers - {author[e]}, author);
    }
  }

  // ---- honest retries ---------------------------------------------------------------------------------

  /** The stored request, evaluated afresh, needs approval, and goes to the upstream it names. */
  predicate StillNeedsApproval(cfg: Config, registry: ToolRegistry, row: Row) {
    && row.tool in registry
    && cfg.decide(RequestOf(Call(row.tool, row.arguments, None, false, None), registry[row.tool])).action
         == RequireApproval
    && row.upstream == registry[row.tool].upstream
  }

  /** Neither tools nor annotations change. */
  ghost predicate SteadyRun(cfg: Config, t: Trace) {
    IsRun(cfg, t) && forall i | 0 <= i < |t.states| :: t.states[i].registry == t.states[0].registry
  }

  /** With the registry fixed, every row opened since needs approval, and every handler keeps its entry. */
  ghost predicate Settled(cfg: Config, s: State, registry: ToolRegistry, before: Table) {
    && (forall id | id in s.rows && id !in before :: StillNeedsApproval(cfg, registry, s.rows[id]))
    && (forall h | h in s.handlers && s.handlers[h].entry.Some? ::
          s.handlers[h].call.tool in registry && registry[s.handlers[h].call.tool] == s.handlers[h].entry.value)
  }

  lemma MoveKeepsSettled(cfg: Config, s: State, m: Move, before: Table)
    requires Inv(cfg, s) && Enabled(cfg, s, m) && Settled(cfg, s, s.registry, before)
    ensures Settled(cfg, Next(cfg, s, m), s.registry, before)
  {
    MoveEvolves(cfg, s, m);
    if m.Run? {
      assert HandlerAt(cfg, s, m.h);
      RunTouches(cfg, s, m.h, m.choice);
      StepKeepsSettled(cfg, s, Next(cfg, s, m), m.h, before);
    }
  }

  lemma StepKeepsSettled(cfg: Config, s: State, s': State, h: nat, before: Table)
    requires Touches(s, s', h) && Evolves(s.rows, s'.rows) && HandlerOk(cfg, s, h, s.handlers[h])
    requires Settled(cfg, s, s.registry, before)
    ensures Settled(cfg, s', s.registry, before)
  {
    forall id | id in s'.rows && id !in before ensures StillNeedsApproval(cfg, s.registry, s'.rows[id]) {
      if id !in s.rows { assert s.handlers[h].pc.Creating?; }
    }
  }

  lemma {:induction false} SteadyRunsStaySettled(cfg: Config, t: Trace, i: nat)
    requires SteadyRun(cfg, t) && i < |t.states|
    ensures Settled(cfg, t.states[i], t.states[0].registry, t.states[0].rows)
    decreases i
  {
    if i > 0 {
      SteadyRunsStaySettled(cfg, t, i - 1);
      RunsKeepInv(cfg, t, i - 1);
      StepTaken(cfg, t, i - 1);
      MoveKeepsSettled(cfg, t.states[i - 1], t.moves[i - 1], t.states[0].rows);
    }
  }

  /** The call repeats what the row was opened for. */
  predicate Repeats(call: Call, row: Row) { call.tool == row.tool && call.arguments == row.arguments }

  /**
   * A call that is no retry, or that repeats what the row it names was opened for, reaches an upstream only if
   * the policy allows it or asks for approval and a row opened for this tool and these arguments is approved.
   * For a row found in the database at the start, the policy must still ask for approval as it did then. What
   * other callers do does not matter.
   */
  lemma HonestRetriesBind(cfg: Config, t: Trace, i: nat, h: nat, sent: Sent)
    requires SteadyRun(cfg, t) && i < |t.states|
    requires h in t.states[i].handlers && sent in t.states[i].handlers[h].sent
    requires var x := t.states[i].handlers[h];
             x.call.retry.Some? && x.call.retry.value in t.states[i].rows ==>
               Repeats(x.call, t.states[i].rows[x.call.retry.value])
    requires var x := t.states[i].handlers[h];
             x.call.retry.Some? && x.call.retry.value in t.states[0].rows ==>
               StillNeedsApproval(cfg, t.states[0].registry, t.states[0].rows[x.call.retry.value])
    ensures var x := t.states[i].handlers[h];
            && x.entry.Some?
            && cfg.decide(RequestOf(x.call, x.entry.value)).action
                 == (if sent.approval.None? then Allow else RequireApproval)
            && sent.arguments == x.call.arguments
            && (sent.approval.Some? ==>
                  Repeats(x.call, sent.approval.value) && sent.approval.value.upstream == sent.upstream)
  {
    var s := t.states[i];
    var x := s.handlers[h];
    RunsKeepInv(cfg, t, i);
    SteadyRunsStaySettled(cfg, t, i);
    RowsEvolveAlong(cfg, t, 0, i);
    assert HandlerAt(cfg, s, h);
    assert SentOk(cfg, s, h, x, sent);
    if sent.approval.Some? {
      var row := sent.approval.value;
      assert Repeats(x.call, row);
      var again := Call(row.tool, row.arguments, None, false, None);
      assert RequestOf(again, x.entry.value) == RequestOf(x.call, x.entry.value);
    }
  }

  /** Let handler `h` make a move. */
  lemma Advance(cfg: Config, t: Trace, h: nat) returns (t': Trace)
    requires IsRun(cfg, t) && CanRun(cfg, Last(t), h, NOTHING)
    ensures IsRun(cfg, t') && Begins(t, t') && Last(t') == RunNext(cfg, Last(t), h, NOTHING)
  {
    ExtendedIsRun(cfg, t, Run(h, NOTHING));
    t' := Extended(cfg, t, Run(h, NOTHING));
  }

  /** The run goes on so that `h`, with this call, makes this upstream call on this row. */
  ghost predicate GoesOnToSend(cfg: Config, t: Trace, t': Trace, h: nat, call: Call, row: Row, sent: Sent) {
    && IsRun(cfg, t') && Begins(t, t') && h in Last(t').handlers && Last(t').handlers[h].call == call
    && sent in Last(t').handlers[h].sent && sent.approval == Some(row)
  }

  /** An approved row carries any retry that names it, whatever the policy says and whatever it was opened for. */
  lemma ApprovalServesAnyRetry(cfg: Config, t: Trace, h: nat, call: Call, row: Row) returns (t': Trace, sent: Sent)
    requires IsRun(cfg, t) && h !in Last(t).handlers && call.tool in Last(t).registry
    requires Last(t).registry[call.tool].upstream in cfg.connections
    requires call.retry == Some(row.id) && Find(Last(t).rows, row.id) == Some(row) && row.status.Approved?
    ensures GoesOnToSend(cfg, t, t', h, call, row, sent)
    ensures var entry := Last(t).registry[call.tool];
            sent == Sent(entry.upstream, entry.remoteName, call.arguments, Some(row))
  {
    var entry := Last(t).registry[call.tool];
    sent := Sent(entry.upstream, entry.remoteName, call.arguments, Some(row));
    var arrived := RetryArrives(cfg, t, h, call);
    var found := RetryFinds(cfg, arrived, h, row);
    t' := FoundIsForwarded(cfg, found, h, row, entry);
    BeginsTransitive(t, arrived, found);
    BeginsTransitive(t, found, t');
  }

  /** From a retry to the start of its resumption. */
  lemma RetryArrives(cfg: Config, t: Trace, h: nat, call: Call) returns (t': Trace)
    requires IsRun(cfg, t) && h !in Last(t).handlers && call.tool in Last(t).registry && call.retry.Some?
    ensures IsRun(cfg, t') && Begins(t, t') && Last(t').rows == Last(t).rows && h in Last(t').handlers
    ensures Last(t').clock == Last(t).clock
    ensures Last(t').handlers[h] == Admitted(cfg, NewHandler(call), Last(t).registry[call.tool])
                                      .(pc := ResumeReading(call.retry.value))
  {
    ExtendedIsRun(cfg, t, Arrive(h, call));
    t' := Extended(cfg, t, Arrive(h, call));
    DirectMove(cfg, Last(t'), h, NOTHING);
    t' := Advance(cfg, t', h);
  }

  /** A retry can use an approval for what it was not given for, if and only if it does not repeat the row's call. */
  lemma MisuseIsExactlyNotRepeating(cfg: Config, t: Trace, h: nat, call: Call, row: Row)
    requires IsRun(cfg, t) && h !in Last(t).handlers && call.tool in Last(t).registry
    requires Last(t).registry[call.tool].upstream in cfg.connections
    requires call.retry == Some(row.id) && Find(Last(t).rows, row.id) == Some(row) && row.status.Approved?
    ensures (exists t', sent ::
               GoesOnToSend(cfg, t, t', h, call, row, sent)
               && (call.tool != row.tool || sent.arguments != row.arguments))
            <==> !Repeats(call, row)
  {
    if t', sent :| GoesOnToSend(cfg, t, t', h, call, row, sent)
                   && (call.tool != row.tool || sent.arguments != row.arguments) {
      RunsKeepInv(cfg, t', |t'.states| - 1);
      assert HandlerAt(cfg, Last(t'), h);
      assert SentOk(cfg, Last(t'), h, Last(t').handlers[h], sent);
    }
    var t', sent := ApprovalServesAnyRetry(cfg, t, h, call, row);
  }

  /** From the start of a resumption to the row in hand. */
  lemma RetryFinds(cfg: Config, t: Trace, h: nat, row: Row) returns (t': Trace)
    requires IsRun(cfg, t) && h in Last(t).handlers && Last(t).handlers[h].pc == ResumeReading(row.id)
    requires Find(Last(t).rows, row.id) == Some(row) && row.status.IsResolved()
    ensures IsRun(cfg, t') && Begins(t, t')
    ensures h in Last(t').handlers && Last(t').handlers[h] == Last(t).handlers[h].(pc := Applying(Some(row), false))
  {
    ReadMove(cfg, Last(t), h, NOTHING, row.id);
    t' := Advance(cfg, t, h);
    CheckMove(cfg, Last(t'), h, NOTHING);
    t' := Advance(cfg, t', h);
    FindMove(cfg, Last(t'), h, NOTHING);
    t' := Advance(cfg, t', h);
  }

  /** From an approved row in hand to the upstream. */
  lemma FoundIsForwarded(cfg: Config, t: Trace, h: nat, row: Row, entry: NamespacedTool) returns (t': Trace)
    requires IsRun(cfg, t) && h in Last(t).handlers && Last(t).handlers[h].pc == Applying(Some(row), false)
    requires row.status.Approved? && Last(t).handlers[h].entry == Some(entry) && entry.upstream in cfg.connections
    ensures IsRun(cfg, t') && Begins(t, t') && h in Last(t').handlers
    ensures Last(t').handlers[h].call == Last(t).handlers[h].call
    ensures Sent(entry.upstream, entry.remoteName, Last(t).handlers[h].call.arguments, Some(row))
              in Last(t').handlers[h].sent
  {
    ApplyMove(cfg, Last(t), h, NOTHING);
    t' := Advance(cfg, t, h);
    ForwardMove(cfg, Last(t'), h, NOTHING);
    t' := Advance(cfg, t', h);
  }
}
