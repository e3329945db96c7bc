/** What a call is answered, under which label it is filed, and who a settled row says decided it. */
module ProtocolOutcomes {
  import opened Wrappers
  import opened Json
  import opened Engine
  import opened Registry
  import opened Timestamps
  import opened ApprovalStore
  import opened AuditStore
  import opened Protocol
  import opened ProtocolMoves
  import opened ProtocolSteps
  import opened ProtocolInvariant
  import opened ProtocolTheorems

  // ---- when a refusal is filed as a dismissal -------------------------------------

  /** The handler has read its request as pending, and is about to dismiss it. */
  predicate AtDismissal(s: State, h: nat) {
    h in s.handlers && s.handlers[h].pc.Dismissing? && s.handlers[h].pc.seen.status.Pending?
  }

  /** Up to state `i`, the call itself has read its request as pending. */
  ghost predicate ReadPending(t: Trace, i: nat, h: nat) {
    exists k :: 0 <= k <= i && k < |t.states| && AtDismissal(t.states[k], h)
  }

  /** What a handler's place says of whether it has read its request as pending. */
  predicate Labelled(pc: Pc, was: bool) {
    match pc
    case Dismissing(_, _, _) => was
    case Dismissed(_, _, _) => was
    case Applying(_, dismissal) => dismissal == was
    case Recording(_, reply) => LabelFits(reply, was)
    case Done(reply) => LabelFits(reply, was)
    case _ => Early(pc) ==> !was
  }

  predicate LabelFits(reply: Reply, was: bool) {
    reply.Refused? && reply.approval.Some? ==> reply.outcome == FiledUnder(reply.approval.value, was)
  }

  ghost predicate LabelAt(s: State, h: nat, was: bool) {
    (if h in s.handlers then Labelled(s.handlers[h].pc, was) else !was) == true
  }

  lemma StepKeepsLabel(s: State, s': State, h: nat, was: bool)
    requires Touches(s, s', h) && Labelled(s.handlers[h].pc, was)
    ensures Labelled(s'.handlers[h].pc, was || AtDismissal(s', h))
  {
  }

  /** What another's move leaves a handler. */
  lemma OthersMove(cfg: Config, s: State, m: Move, h: nat)
    requires Enabled(cfg, s, m) && !(m.Run? && m.h == h)
    ensures var s' := Next(cfg, s, m);
            && (h in s.handlers ==> h in s'.handlers && s'.handlers[h] == s.handlers[h])
            && (h !in s.handlers && h in s'.handlers ==> m.Arrive? && s'.handlers[h] == NewHandler(m.call))
  {
    if m.Run? { RunTouches(cfg, s, m.h, m.choice); }
  }

  lemma {:induction false} LabelsFit(cfg: Config, t: Trace, i: nat, h: nat)
    requires IsRun(cfg, t) && i < |t.states|
    ensures LabelAt(t.states[i], h, ReadPending(t, i, h))
    decreases i
  {
    if i == 0 {
      assert forall k | 0 <= k <= 0 :: !AtDismissal(t.states[k], h);
    } else {
      LabelsFit(cfg, t, i - 1, h);
      LabelCarries(cfg, t, i - 1, h, ReadPending(t, i - 1, h));
      ReadPendingGrows(t, i, h);
    }
  }

  lemma LabelCarries(cfg: Config, t: Trace, k: nat, h: nat, was: bool)
    requires IsRun(cfg, t) && k < |t.moves| && LabelAt(t.states[k], h, was)
    ensures LabelAt(t.states[k + 1], h, was || AtDismissal(t.states[k + 1], h))
  {
    StepTaken(cfg, t, k);
    MoveKeepsLabel(cfg, t.states[k], t.moves[k], h, was);
  }

  lemma MoveKeepsLabel(cfg: Config, s: State, m: Move, h: nat, was: bool)
    requires Enabled(cfg, s, m) && LabelAt(s, h, was)
    ensures LabelAt(Next(cfg, s, m), h, was || AtDismissal(Next(cfg, s, m), h))
  {
    if m.Run? && m.h == h {
      RunTouches(cfg, s, h, m.choice);
      StepKeepsLabel(s, Next(cfg, s, m), h, was);
    } else {
      OthersMove(cfg, s, m, h);
      assert h in s.handlers && was ==> Labelled(s.handlers[h].pc, was);
    }
  }

  lemma ReadPendingGrows(t: Trace, i: nat, h: nat)
    requires 0 < i < |t.states|
    ensures ReadPending(t, i, h) <==> ReadPending(t, i - 1, h) || AtDismissal(t.states[i], h)
  {
    if ReadPending(t, i - 1, h) {
      var k :| 0 <= k <= i - 1 && k < |t.states| && AtDismissal(t.states[k], h);
      assert 0 <= k <= i;
    }
  }

  /**
   * A refused call never reached an upstream. It was refused because the policy denies it; or on a settled row
   * that grants nothing, the one its retry names or the one its own call was parked in. Then it is filed as a
   * dismissal exactly if this very call has read the row as pending, and by the row's status if not.
   */
  lemma RefusalIsJustified(cfg: Config, policy: Policy, patterns: seq<string>, t: Trace, i: nat, h: nat)
    requires Deploys(cfg, policy, patterns)
    requires IsRun(cfg, t) && i < |t.states| && h in t.states[i].handlers
    requires t.states[i].handlers[h].pc.Done? && t.states[i].handlers[h].pc.reply.Refused?
    ensures var s := t.states[i];
            var x := s.handlers[h];
            var outcome := x.pc.reply.outcome;
            && x.sent == [] && x.entry.Some?
            && match x.pc.reply.approval
               case None =>
                 && outcome == DeniedByPolicy && x.call.retry.None?
                 && Decide(RequestOf(x.call, x.entry.value), policy).action == Deny
               case Some(row) =>
                 && outcome == FiledUnder(row, ReadPending(t, i, h))
                 && (outcome == DismissedByClient <==> ReadPending(t, i, h))
                 && row.status.IsResolved() && !row.status.Approved? && Find(Last(t).rows, row.id) == Some(row)
                 && (x.call.retry == Some(row.id) || (x.call.retry.None? && DrawnBy(s, h, row.id)))
  {
    var s := t.states[i];
    var x := s.handlers[h];
    RunsKeepInv(cfg, t, i);
    assert HandlerAt(cfg, s, h);
    assert ReplyOk(cfg, s, h, x, x.pc.reply);
    LabelsFit(cfg, t, i, h);
    if x.pc.reply.approval.Some? { SingleAssignment(cfg, t, i, |t.states| - 1, x.pc.reply.approval.value.id); }
  }

  // ---- who settled a row ----------------------------------------------------------------

  datatype Actor = Human | Timer | Client | Sweep

  /** Who makes a move that settles a row. */
  function ActorOf(s: State, m: Move): Actor {
    match m
    case HumanDecides(_, _, _, _, _) => Human
    case Run(h, _) =>
      if h in s.handlers && s.handlers[h].pc.AutoApproving? then Timer
      else if h in s.handlers && s.handlers[h].pc.Dismissing? then Client
      else Sweep
    case _ => Sweep
  }

  /** Who the row says it was. */
  function ActorOn(row: Row): Actor {
    if row.status.Expired? then Sweep
    else if row.status.Approved? && row.approver == Some(TIMEOUT_APPROVER) then Timer
    else if row.status.Denied? && row.approver == Some(CLIENT_APPROVER) then Client
    else Human
  }

  /** A human decides under the name the system itself would use for that decision. */
  predicate Impersonates(m: Move) {
    m.HumanDecides? && m.approver == (if m.approved then TIMEOUT_APPROVER else CLIENT_APPROVER)
  }

  /** A row tells by status and approver who settled it, unless a human did under a system name. */
  lemma ActorIsOnRow(cfg: Config, t: Trace, k: nat, id: string)
    requires IsRun(cfg, t) && k < |t.moves| && Settles(t, k, id)
    ensures ActorOn(t.states[k + 1].rows[id]) == ActorOf(t.states[k], t.moves[k]) <==> !Impersonates(t.moves[k])
  {
    var s, m := t.states[k], t.moves[k];
    RunsKeepInv(cfg, t, k);
    StepTaken(cfg, t, k);
    if m.Run? { HandlerIsOnRow(cfg, s, m.h, m.choice, id); }
  }

  lemma HandlerIsOnRow(cfg: Config, s: State, h: nat, choice: Choice, id: string)
    requires Inv(cfg, s) && CanRun(cfg, s, h, choice) && id in s.rows && s.rows[id].status.Pending?
    requires StoredResolved(RunNext(cfg, s, h, choice), id)
    ensures ActorOn(RunNext(cfg, s, h, choice).rows[id]) == ActorOf(s, Run(h, choice))
  {
    RunTouches(cfg, s, h, choice);
    assert HandlerAt(cfg, s, h);
    PlaceIsOnRow(s.rows, s.handlers[h].pc, id);
  }

  lemma PlaceIsOnRow(rows: Table, pc: Pc, id: string)
    requires id in rows && rows[id].status.Pending? && (pc.Creating? ==> pc.row.id !in rows)
    requires id in RowsAfter(rows, pc) && RowsAfter(rows, pc)[id].status.IsResolved()
    ensures ActorOn(RowsAfter(rows, pc)[id]) ==
              if pc.AutoApproving? then Timer else if pc.Dismissing? then Client else Sweep
  {
  }

  /** So, where no human uses those names, of every row settled in the run, for good. */
  lemma ActorsAreKnown(cfg: Config, t: Trace, j: nat, id: string) returns (k: nat)
    requires IsRun(cfg, t) && j < |t.states| && StoredResolved(t.states[j], id) && !StoredResolved(t.states[0], id)
    requires forall m <- t.moves :: !Impersonates(m)
    ensures k < j && Settles(t, k, id) && ActorOf(t.states[k], t.moves[k]) == ActorOn(t.states[j].rows[id])
  {
    k := ResolutionHasOneCause(cfg, t, j, id);
    assert t.moves[k] in t.moves;
    ActorIsOnRow(cfg, t, k, id);
  }

  /**
   * A refusal on a row settled in the run comes of a human's decision exactly if the row names a human. So one
   * filed as an approver's denial is a human's exactly if the row does not name the client.
   */
  lemma RefusalNamesItsActor(cfg: Config, t: Trace, j: nat, h: nat) returns (k: nat)
    requires IsRun(cfg, t) && j < |t.states| && h in t.states[j].handlers
    requires forall m <- t.moves :: !Impersonates(m)
    requires var pc := t.states[j].handlers[h].pc;
             && pc.Done? && pc.reply.Refused? && pc.reply.approval.Some?
             && !StoredResolved(t.states[0], pc.reply.approval.value.id)
    ensures var reply := t.states[j].handlers[h].pc.reply;
            var row := reply.approval.value;
            && k < j && Settles(t, k, row.id) && t.states[k + 1].rows[row.id] == row
            && (t.moves[k].HumanDecides? <==> ActorOn(row) == Human)
            && (reply.outcome == DeniedByApprover ==>
                  (t.moves[k].HumanDecides? <==> row.approver != Some(CLIENT_APPROVER)))
  {
    var x := t.states[j].handlers[h];
    var row := x.pc.reply.approval.value;
    RunsKeepInv(cfg, t, j);
    assert HandlerAt(cfg, t.states[j], h);
    assert ReplyOk(cfg, t.states[j], h, x, x.pc.reply) && RefusedOn(x, row, x.pc.reply.outcome);
    k := ResolutionHasOneCause(cfg, t, j, row.id);
    assert t.moves[k] in t.moves;
    ActorIsOnRow(cfg, t, k, row.id);
  }

  // ---- the two labels that mislead ----------------------------------------------------------

  /** The row as a human denies it. */
  function DeniedBy(row: Row, approver: string, note: Option<string>, at: Time): Row {
    row.(status := Denied, decidedAt := Some(at), approver := Some(approver), note := note)
  }

  /** The run goes on so that `h` is about to record and answer this refusal. */
  ghost predicate GoesOnToRefuse(cfg: Config, t: Trace, t': Trace, h: nat, outcome: Outcome, row: Row) {
    && IsRun(cfg, t') && Begins(t, t') && h in Last(t').handlers
    && var pc := Last(t').handlers[h].pc;
       && pc.Recording? && pc.reply == Refused(outcome, Some(row))
       && pc.event.outcome == outcome && pc.event.approvalId == Some(row.id) && pc.event.approver == row.approver
  }

  /**
   * A human's denial filed as the client's dismissal: the retry reads the row as pending, the human denies it,
   * and only then does the dismissal arrive. Any run with a pending row that is not overdue goes on so.
   */
  lemma DenialFiledAsDismissal(cfg: Config, t: Trace, h: nat, call: Call, row: Row, approver: string,
                               note: Option<string>) returns (t': Trace)
    requires IsRun(cfg, t) && h !in Last(t).handlers && call.tool in Last(t).registry
    requires call.retry == Some(row.id) && Find(Last(t).rows, row.id) == Some(row)
    requires row.status.Pending? && Last(t).clock < row.expiresAt
    ensures GoesOnToRefuse(cfg, t, t', h, DismissedByClient, DeniedBy(row, approver, note, Last(t).clock))
    ensures HumanDecides(row.id, false, approver, note, Last(t).clock) in t'.moves
  {
    var at := Last(t).clock;
    var arrived := RetryArrives(cfg, t, h, call);
    var dismissing := RetryFindsPending(cfg, arrived, h, row);
    BeginsTransitive(t, arrived, dismissing);
    var denied := HumanDenies(cfg, dismissing, row, approver, note);
    BeginsTransitive(t, dismissing, denied);
    t' := DismissalComesLate(cfg, denied, h, row, DeniedBy(row, approver, note, at), at);
    BeginsTransitive(t, denied, t');
  }

  lemma RetryFindsPending(cfg: Config, t: Trace, h: nat, row: Row) returns (t': Trace)
    requires IsRun(cfg, t) && h in Last(t).handlers && Last(t).handlers[h].pc == ResumeReading(row.id)
    requires Find(Last(t).rows, row.id) == Some(row) && row.status.Pending? && Last(t).clock < row.expiresAt
    ensures IsRun(cfg, t') && Begins(t, t') && Last(t').rows == Last(t).rows && Last(t').clock == Last(t).clock
    ensures h in Last(t').handlers
    ensures Last(t').handlers[h] == Last(t).handlers[h].(pc := Dismissing(row.id, row, Last(t).clock))
  {
    ReadMove(cfg, Last(t), h, NOTHING, row.id);
    t' := Advance(cfg, t, h);
    CheckMove(cfg, Last(t'), h, NOTHING);
    t' := Advance(cfg, t', h);
    FindMove(cfg, Last(t'), h, NOTHING);
    t' := Advance(cfg, t', h);
  }

  lemma HumanDenies(cfg: Config, t: Trace, row: Row, approver: string, note: Option<string>) returns (t': Trace)
    requires IsRun(cfg, t) && Find(Last(t).rows, row.id) == Some(row) && row.status.Pending?
    ensures IsRun(cfg, t') && Begins(t, t') && Last(t').handlers == Last(t).handlers
    ensures Find(Last(t').rows, row.id) == Some(DeniedBy(row, approver, note, Last(t).clock))
    ensures HumanDecides(row.id, false, approver, note, Last(t).clock) in t'.moves
  {
    var m := HumanDecides(row.id, false, approver, note, Last(t).clock);
    ExtendedIsRun(cfg, t, m);
    t' := Extended(cfg, t, m);
    assert t'.moves[|t.moves|] == m;
  }

  lemma DismissalComesLate(cfg: Config, t: Trace, h: nat, seen: Row, row: Row, at: Time) returns (t': Trace)
    requires IsRun(cfg, t) && h in Last(t).handlers && Last(t).handlers[h].pc == Dismissing(row.id, seen, at)
    requires Find(Last(t).rows, row.id) == Some(row) && row.status.Denied?
    ensures GoesOnToRefuse(cfg, t, t', h, DismissedByClient, row)
  {
    DecisionMove(cfg, Last(t), h, NOTHING, row.id, false, CLIENT_APPROVER, ABANDONED, at);
    t' := Advance(cfg, t, h);
    DismissedMove(cfg, Last(t'), h, NOTHING);
    t' := Advance(cfg, t', h);
    ApplyMove(cfg, Last(t'), h, NOTHING);
    t' := Advance(cfg, t', h);
  }

  /** And a dismissal filed as an approver's denial: the next retry of a request the client has dismissed. */
  lemma DismissalFiledAsDenial(cfg: Config, t: Trace, h: nat, call: Call, row: Row) returns (t': Trace)
    requires IsRun(cfg, t) && h !in Last(t).handlers && call.tool in Last(t).registry
    requires call.retry == Some(row.id) && Find(Last(t).rows, row.id) == Some(row)
    requires row.status.Denied? && row.approver == Some(CLIENT_APPROVER)
    ensures GoesOnToRefuse(cfg, t, t', h, DeniedByApprover, row)
  {
    var arrived := RetryArrives(cfg, t, h, call);
    var found := RetryFinds(cfg, arrived, h, row);
    BeginsTransitive(t, arrived, found);
    ApplyMove(cfg, Last(found), h, NOTHING);
    t' := Advance(cfg, found, h);
    BeginsTransitive(t, found, t');
  }

  // ---- every call is answered as it should be ---------------------------------------------------

  /** What was sent and answered is that the call was passed on, if its upstream is connected. */
  predicate PassedOn(cfg: Config, sent: seq<Sent>, entry: NamespacedTool, arguments: Arguments,
                     approval: Option<Row>, reply: Reply)
  {
    if entry.upstream in cfg.connections then
      && sent == [Sent(entry.upstream, entry.remoteName, arguments, approval)]
      && (reply.Returned? || reply.Unavailable?)
    else sent == [] && reply.Unavailable?
  }

  /** What was sent and answered is what this row says of the call. */
  predicate DealtWith(cfg: Config, sent: seq<Sent>, entry: NamespacedTool, arguments: Arguments, row: Row,
                      reply: Reply)
  {
    if row.status.Approved? then PassedOn(cfg, sent, entry, arguments, Some(row), reply)
    else sent == [] && reply.Refused? && reply.approval == Some(row)
  }

  /** What the registry, the decision, elicitation and the row make of a call. */
  ghost predicate AnsweredRightly(cfg: Config, s: State, h: nat, x: Handler, reply: Reply) {
    match x.entry
    case None => reply.NoSuchTool? && x.sent == []
    case Some(entry) =>
      if x.call.retry.Some? then
        || (reply.NotOnFile? && x.sent == [])
        || (StoredResolved(s, x.call.retry.value)
            && DealtWith(cfg, x.sent, entry, x.call.arguments, s.rows[x.call.retry.value], reply))
      else match x.decision.action
        case Allow => PassedOn(cfg, x.sent, entry, x.call.arguments, None, reply)
        case Deny => reply == Refused(DeniedByPolicy, None) && x.sent == []
        case RequireApproval =>
          if Held(cfg, x) then
            exists id ::
              && DrawnBy(s, h, id) && StoredResolved(s, id)
              && DealtWith(cfg, x.sent, entry, x.call.arguments, s.rows[id], reply)
          else
            && reply.InputRequired? && x.sent == []
            && DrawnBy(s, h, reply.request.id) && reply.request.id in s.rows
            && SameRequest(reply.request, s.rows[reply.request.id])
  }

  lemma AnswerIsDetermined(cfg: Config, t: Trace, i: nat, h: nat)
    requires IsRun(cfg, t) && i < |t.states| && h in t.states[i].handlers && t.states[i].handlers[h].pc.Done?
    ensures AnsweredRightly(cfg, t.states[i], h, t.states[i].handlers[h], t.states[i].handlers[h].pc.reply)
  {
    RunsKeepInv(cfg, t, i);
    assert HandlerAt(cfg, t.states[i], h);
    DoneIsRight(cfg, t.states[i], h, t.states[i].handlers[h]);
  }

  /**
   * A client is handed a link exactly if its call is parked and either links are forced, or they are left to the
   * client's capability and it has it. So a client without it gets one only if links are forced, and none gets
   * one where calls are always held.
   */
  lemma LinkGoesWhereItWorks(cfg: Config, t: Trace, i: nat, h: nat)
    requires IsRun(cfg, t) && i < |t.states| && h in t.states[i].handlers && t.states[i].handlers[h].pc.Done?
    ensures var x := t.states[i].handlers[h];
            && (x.pc.reply.InputRequired? <==>
                  && x.entry.Some? && x.call.retry.None? && x.decision.action == RequireApproval
                  && (cfg.mode == Elicit || (cfg.mode == Auto && x.call.supportsUrl)))
            && (x.pc.reply.InputRequired? && !x.call.supportsUrl ==> cfg.mode == Elicit)
            && (cfg.mode == Block ==> !x.pc.reply.InputRequired?)
  {
    AnswerIsDetermined(cfg, t, i, h);
    RunsKeepInv(cfg, t, i);
    assert HandlerAt(cfg, t.states[i], h);
    assert ReplyOk(cfg, t.states[i], h, t.states[i].handlers[h], t.states[i].handlers[h].pc.reply);
  }

  lemma DoneIsRight(cfg: Config, s: State, h: nat, x: Handler)
    requires RowsOk(s) && HandlerOk(cfg, s, h, x) && x.pc.Done?
    ensures AnsweredRightly(cfg, s, h, x, x.pc.reply)
  {
    var reply := x.pc.reply;
    assert ReplyOk(cfg, s, h, x, reply);
    if reply.Returned? || reply.Unavailable? {
      PassedOnRightly(cfg, s, h, x);
    } else if reply.Refused? && reply.approval.Some? {
      assert StandingRow(cfg, s, h, x, reply.approval.value);
    }
  }

  lemma PassedOnRightly(cfg: Config, s: State, h: nat, x: Handler)
    requires HandlerOk(cfg, s, h, x) && x.pc.Done? && (x.pc.reply.Returned? || x.pc.reply.Unavailable?)
    ensures AnsweredRightly(cfg, s, h, x, x.pc.reply)
  {
    var approval;
    if x.sent == [] {
      assert ReplyOk(cfg, s, h, x, x.pc.reply);
      approval :| Licensed(cfg, s, h, x, approval);
    } else {
      assert x.sent == [x.sent[0]] && SentOk(cfg, s, h, x, x.sent[0]);
      approval := x.sent[0].approval;
    }
    assert x.entry.Some? && PassedOn(cfg, x.sent, x.entry.value, x.call.arguments, approval, x.pc.reply);
    if approval.Some? { assert StandingRow(cfg, s, h, x, approval.value); }
  }

  // ---- a retry finds what is stored -----------------------------------------------------------------

  /** A retry that has not yet missed its row. */
  predicate NotMissed(pc: Pc) {
    match pc
    case ResumeRead(_, found) => found.Some?
    case Resuming(_, found) => found.Some?
    case Done(reply) => !reply.NotOnFile?
    case _ => true
  }

  lemma StepKeepsFinding(cfg: Config, s: State, s': State, h: nat)
    requires Touches(s, s', h) && NotMissed(s.handlers[h].pc) && HandlerOk(cfg, s, h, s.handlers[h])
    requires s.handlers[h].call.retry.Some? ==> s.handlers[h].call.retry.value in s.rows
    ensures NotMissed(s'.handlers[h].pc)
  {
  }

  /** A retry naming a row that was stored when it arrived is never told that there is none. */
  lemma {:induction false} StoredIsFound(cfg: Config, t: Trace, i: nat, j: nat, h: nat)
    requires IsRun(cfg, t) && i <= j < |t.states| && h in t.states[i].handlers && NotMissed(t.states[i].handlers[h].pc)
    requires var x := t.states[i].handlers[h]; x.call.retry.Some? ==> x.call.retry.value in t.states[i].rows
    ensures h in t.states[j].handlers && t.states[j].handlers[h].call == t.states[i].handlers[h].call
    ensures NotMissed(t.states[j].handlers[h].pc)
    decreases j
  {
    if i < j {
      StoredIsFound(cfg, t, i, j - 1, h);
      RowsEvolveAlong(cfg, t, i, j - 1);
      RunsKeepInv(cfg, t, j - 1);
      StepTaken(cfg, t, j - 1);
      MoveKeepsFinding(cfg, t.states[j - 1], t.moves[j - 1], h);
    }
  }

  lemma MoveKeepsFinding(cfg: Config, s: State, m: Move, h: nat)
    requires Inv(cfg, s) && Enabled(cfg, s, m) && h in s.handlers && NotMissed(s.handlers[h].pc)
    requires s.handlers[h].call.retry.Some? ==> s.handlers[h].call.retry.value in s.rows
    ensures var s' := Next(cfg, s, m);
            h in s'.handlers && s'.handlers[h].call == s.handlers[h].call && NotMissed(s'.handlers[h].pc)
  {
    if m.Run? && m.h == h {
      RunTouches(cfg, s, h, m.choice);
      assert HandlerAt(cfg, s, h);
      StepKeepsFinding(cfg, s, Next(cfg, s, m), h);
    } else {
      OthersMove(cfg, s, m, h);
    }
  }
}
