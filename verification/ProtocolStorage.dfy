/** What the database comes to hold of a call's arguments: the raw ones, or only the redacted. */
module ProtocolStorage {
  import opened Wrappers
  import opened Json
  import opened Engine
  import opened Redaction
  import opened Timestamps
  import opened ApprovalStore
  import opened Disclosure
  import opened Protocol
  import opened ProtocolMoves
  import opened ProtocolSteps
  import opened ProtocolInvariant
  import opened ProtocolTheorems
  import opened ProtocolOutcomes
  import opened ProtocolProgress

  // ---- which calls are stored as they came --------------------------------------

  /** The call is parked: its tool is found, it is no retry, and the policy asks for approval. */
  predicate Parks(x: Handler) { x.entry.Some? && x.call.retry.None? && x.decision.action == RequireApproval }

  /** The row holds the call as it came. */
  predicate HoldsCall(row: Row, call: Call) { row.tool == call.tool && row.arguments == call.arguments }

  /** The id was drawn for a parked call, and its row is stored with the raw arguments, or about to be. */
  ghost predicate ParkedUnder(s: State, h: nat, id: string) {
    h in s.handlers
    && var x := s.handlers[h];
       && Parks(x) && !x.pc.Begin?
       && (if id in s.rows then HoldsCall(s.rows[id], x.call) else x.pc.Creating? && x.pc.row.id == id)
  }

  ghost predicate IdsAreParked(s: State) { forall id | id in s.issued :: ParkedUnder(s, s.issued[id], id) }

  ghost predicate HasId(s: State, h: nat) { exists id :: DrawnBy(s, h, id) }

  ghost predicate ParkedHaveIds(s: State) {
    forall h | h in s.handlers && Parks(s.handlers[h]) && !s.handlers[h].pc.Begin? :: HasId(s, h)
  }

  /** As it begins, a call parks exactly if it is given an id. */
  lemma BeginningParks(cfg: Config, s: State, h: nat, choice: Choice)
    requires CanRun(cfg, s, h, choice) && s.handlers[h].pc.Begin? && s.handlers[h].entry.None?
    ensures var s' := RunNext(cfg, s, h, choice);
            h in s'.handlers && (Parks(s'.handlers[h]) <==> s'.handlers[h].pc.Creating?)
  {
    var x := s.handlers[h];
    if x.call.tool !in s.registry {
      UnknownMove(cfg, s, h, choice);
    } else if NeedsApproval(cfg, s, x.call) {
      ParkMove(cfg, s, h, choice);
    } else {
      DirectMove(cfg, s, h, choice);
    }
  }

  lemma HandlerKeepsParked(cfg: Config, s: State, s': State, h: nat, id: string)
    requires Touches(s, s', h) && Evolves(s.rows, s'.rows) && HandlerOk(cfg, s, h, s.handlers[h])
    requires id in s.issued && ParkedUnder(s, s.issued[id], id)
    requires s.handlers[h].pc.Creating? ==> DrawnBy(s, h, s.handlers[h].pc.row.id)
    ensures ParkedUnder(s', s.issued[id], id)
  {
  }

  lemma RunKeepsIds(cfg: Config, s: State, h: nat, choice: Choice)
    requires Inv(cfg, s) && CanRun(cfg, s, h, choice) && IdsAreParked(s)
    ensures IdsAreParked(RunNext(cfg, s, h, choice))
  {
    var s' := RunNext(cfg, s, h, choice);
    assert HandlerAt(cfg, s, h);
    RunTouches(cfg, s, h, choice);
    MoveEvolves(cfg, s, Run(h, choice));
    if s.handlers[h].pc.Begin? { BeginningParks(cfg, s, h, choice); }
    forall id | id in s'.issued ensures ParkedUnder(s', s'.issued[id], id) {
      if s'.handlers[h].pc.Creating? && id == s'.handlers[h].pc.row.id {
        MovesKeepInv(cfg, s, Run(h, choice));
        NewIdIsUnused(cfg, s', h);
      } else {
        HandlerKeepsParked(cfg, s, s', h, id);
      }
    }
  }

  lemma NewIdIsUnused(cfg: Config, s: State, h: nat)
    requires Inv(cfg, s) && h in s.handlers && s.handlers[h].pc.Creating?
    ensures s.handlers[h].pc.row.id !in s.rows
  {
    assert HandlerAt(cfg, s, h);
  }

  lemma RunKeepsOwners(cfg: Config, s: State, h: nat, choice: Choice)
    requires Inv(cfg, s) && CanRun(cfg, s, h, choice) && ParkedHaveIds(s)
    ensures ParkedHaveIds(RunNext(cfg, s, h, choice))
  {
    var s' := RunNext(cfg, s, h, choice);
    assert HandlerAt(cfg, s, h);
    RunTouches(cfg, s, h, choice);
    RunOk(cfg, s, h, choice);
    if s.handlers[h].pc.Begin? { BeginningParks(cfg, s, h, choice); }
    forall g | g in s'.handlers && Parks(s'.handlers[g]) && !s'.handlers[g].pc.Begin? ensures HasId(s', g) {
      if g == h && s.handlers[h].pc.Begin? {
        assert DrawnBy(s', g, s'.handlers[g].pc.row.id);
      } else {
        var id :| DrawnBy(s, g, id);
        assert DrawnBy(s', g, id);
      }
    }
  }

  ghost predicate Booked(s: State) { (IdsAreParked(s) && ParkedHaveIds(s)) == true }

  lemma EnvironmentKeepsIds(cfg: Config, s: State, m: Move)
    requires Inv(cfg, s) && Enabled(cfg, s, m) && !m.Run? && IdsAreParked(s)
    ensures IdsAreParked(Next(cfg, s, m))
  {
    var s' := Next(cfg, s, m);
    MoveEvolves(cfg, s, m);
    EnvironmentIssuesNothing(cfg, s, m);
    forall id | id in s'.issued ensures ParkedUnder(s', s'.issued[id], id) {
      assert ParkedUnder(s, s.issued[id], id);
      OthersMove(cfg, s, m, s.issued[id]);
    }
  }

  lemma EnvironmentIssuesNothing(cfg: Config, s: State, m: Move)
    requires Enabled(cfg, s, m) && !m.Run?
    ensures Next(cfg, s, m).issued == s.issued && Next(cfg, s, m).rows.Keys == s.rows.Keys
  {
  }

  lemma EnvironmentKeepsOwners(cfg: Config, s: State, m: Move)
    requires Enabled(cfg, s, m) && !m.Run? && ParkedHaveIds(s)
    ensures ParkedHaveIds(Next(cfg, s, m))
  {
    var s' := Next(cfg, s, m);
    EnvironmentIssuesNothing(cfg, s, m);
    forall g | g in s'.handlers && Parks(s'.handlers[g]) && !s'.handlers[g].pc.Begin? ensures HasId(s', g) {
      OthersMove(cfg, s, m, g);
      var id :| DrawnBy(s, g, id);
      assert DrawnBy(s', g, id);
    }
  }

  lemma {:induction false} RunsAreBooked(cfg: Config, t: Trace, i: nat)
    requires IsRun(cfg, t) && i < |t.states|
    ensures Booked(t.states[i])
    decreases i
  {
    if i > 0 {
      var m := t.moves[i - 1];
      RunsAreBooked(cfg, t, i - 1);
      RunsKeepInv(cfg, t, i - 1);
      StepTaken(cfg, t, i - 1);
      if m.Run? {
        RunKeepsIds(cfg, t.states[i - 1], m.h, m.choice);
        RunKeepsOwners(cfg, t.states[i - 1], m.h, m.choice);
      } else {
        EnvironmentKeepsIds(cfg, t.states[i - 1], m);
        EnvironmentKeepsOwners(cfg, t.states[i - 1], m);
      }
    }
  }

  /** A row drawn by the handler is stored, with its call's arguments as they came. */
  ghost predicate StoresRaw(s: State, h: nat) {
    h in s.handlers
    && exists id :: DrawnBy(s, h, id) && id in s.rows && HoldsCall(s.rows[id], s.handlers[h].call)
  }

  /**
   * Once a call has had its row inserted or needed none, its raw arguments are in the table of approvals under
   * an id drawn for it exactly if it was parked. Redaction plays no part in that.
   */
  lemma RawArgumentsStoredExactly(cfg: Config, t: Trace, i: nat, h: nat)
    requires IsRun(cfg, t) && i < |t.states| && h in t.states[i].handlers
    requires !t.states[i].handlers[h].pc.Begin? && !t.states[i].handlers[h].pc.Creating?
    ensures StoresRaw(t.states[i], h) <==> Parks(t.states[i].handlers[h])
    ensures !Parks(t.states[i].handlers[h]) ==> !HasId(t.states[i], h)
  {
    var s := t.states[i];
    RunsAreBooked(cfg, t, i);
    if HasId(s, h) {
      var id :| DrawnBy(s, h, id);
      assert ParkedUnder(s, s.issued[id], id);
    }
  }

  /** Every row was there at the start, or was drawn for a parked call and holds that call's arguments. */
  lemma {:induction false} RowsAreOldOrParked(cfg: Config, t: Trace, i: nat, id: string)
    requires IsRun(cfg, t) && i < |t.states| && id in t.states[i].rows
    ensures id in t.states[0].rows
            || (id in t.states[i].issued && ParkedUnder(t.states[i], t.states[i].issued[id], id))
    decreases i
  {
    RunsAreBooked(cfg, t, i);
    if i > 0 && id !in t.states[0].rows {
      RunsKeepInv(cfg, t, i - 1);
      StepTaken(cfg, t, i - 1);
      if id in t.states[i - 1].rows { RowsAreOldOrParked(cfg, t, i - 1, id); }
      MoveGrows(cfg, t.states[i - 1], t.moves[i - 1], id);
    }
  }

  lemma MoveGrows(cfg: Config, s: State, m: Move, id: string)
    requires Inv(cfg, s) && Enabled(cfg, s, m) && id in Next(cfg, s, m).rows
    ensures id in s.rows || id in s.issued
    ensures id in s.issued ==> id in Next(cfg, s, m).issued
  {
    if m.Run? {
      assert HandlerAt(cfg, s, m.h);
      RunOk(cfg, s, m.h, m.choice);
    } else {
      EnvironmentOk(cfg, s, m, 0);
    }
  }

  /** The input: a call that needs approval goes on to be stored raw, whatever the redaction patterns. */
  lemma ParkedCallIsStoredRaw(cfg: Config, t: Trace, h: nat) returns (t': Trace, id: string)
    requires IsRun(cfg, t) && h in Last(t).handlers && Last(t).handlers[h].pc.Begin?
    requires NeedsApproval(cfg, Last(t), Last(t).handlers[h].call) && Last(t).clock + cfg.timeout < DAYS * DAY
    ensures IsRun(cfg, t') && Begins(t, t') && id in Last(t').rows
    ensures Last(t').rows[id].arguments == Last(t).handlers[h].call.arguments
  {
    var s := Last(t);
    AnotherId(s.rows.Keys + s.issued.Keys + s.named);
    id :| id !in s.rows.Keys + s.issued.Keys + s.named;
    var creating := CallIsParked(cfg, t, h, id);
    t' := RowIsCreated(cfg, creating, h, id);
    BeginsTransitive(t, creating, t');
  }

  lemma CallIsParked(cfg: Config, t: Trace, h: nat, id: string) returns (t': Trace)
    requires IsRun(cfg, t) && h in Last(t).handlers && Last(t).handlers[h].pc.Begin? && Fresh(Last(t), id)
    requires NeedsApproval(cfg, Last(t), Last(t).handlers[h].call) && Last(t).clock + cfg.timeout < DAYS * DAY
    ensures IsRun(cfg, t') && Begins(t, t') && h in Last(t').handlers && Last(t').handlers[h].pc.Creating?
    ensures var row := Last(t').handlers[h].pc.row; row.id == id && row.arguments == Last(t).handlers[h].call.arguments
  {
    ParkMove(cfg, Last(t), h, Choice(id, None));
    ExtendedIsRun(cfg, t, Run(h, Choice(id, None)));
    t' := Extended(cfg, t, Run(h, Choice(id, None)));
  }

  lemma RowIsCreated(cfg: Config, t: Trace, h: nat, id: string) returns (t': Trace)
    requires IsRun(cfg, t) && h in Last(t).handlers && Last(t).handlers[h].pc.Creating?
    requires Last(t).handlers[h].pc.row.id == id
    ensures IsRun(cfg, t') && Begins(t, t') && Find(Last(t').rows, id) == Some(Last(t).handlers[h].pc.row)
  {
    CreateMove(cfg, Last(t), h, NOTHING);
    t' := Advance(cfg, t, h);
  }

  // ---- what the others leave ------------------------------------------------------------

  /** The handler as it would be had its call come with these arguments. */
  function WithArguments(cfg: Config, x: Handler, b: Arguments): Handler {
    var call := x.call.(arguments := b);
    x.(call := call, decision := if x.entry.Some? then cfg.decide(RequestOf(call, x.entry.value)) else x.decision)
  }

  /**
   * A call that is not parked leaves in the database no row, and its one event. If no rule of the policy reads
   * a hidden path, that event is the same for any other arguments exactly if they agree wherever nothing is
   * hidden; if its tool is not registered, under no condition.
   */
  lemma OthersTellOnlyTheVisible(cfg: Config, policy: Policy, patterns: seq<string>, t: Trace, i: nat, h: nat,
                                 b: Arguments)
    requires Deploys(cfg, policy, patterns) && IsRun(cfg, t) && i < |t.states| && h in t.states[i].handlers
    requires t.states[i].handlers[h].pc.Done? && !Parks(t.states[i].handlers[h])
    requires t.states[i].handlers[h].entry.Some? ==> ReadsVisible(policy, patterns)
    ensures !HasId(t.states[i], h)
    ensures var s := t.states[i];
            var x := s.handlers[h];
            forall e | e in EventsBy(s, h) ::
              e in s.trail
              && (s.trail[e] == EventFor(cfg, WithArguments(cfg, x, b), x.pc.reply)
                  <==> Agree(patterns, "", Obj(x.call.arguments), Obj(b)))
  {
    var s := t.states[i];
    var x := s.handlers[h];
    RawArgumentsStoredExactly(cfg, t, i, h);
    ExactlyOneEvent(cfg, t, i, h);
    RunsKeepInv(cfg, t, i);
    assert HandlerAt(cfg, s, h);
    EventTellsOnlyTheVisible(cfg, policy, patterns, x, b, x.pc.reply);
  }

  lemma EventTellsOnlyTheVisible(cfg: Config, policy: Policy, patterns: seq<string>, x: Handler, b: Arguments,
                                 reply: Reply)
    requires Deploys(cfg, policy, patterns) && DecisionOk(cfg, x) && (reply.NoSuchTool? <==> x.entry.None?)
    requires x.entry.Some? ==> ReadsVisible(policy, patterns)
    ensures EventFor(cfg, x, reply) == EventFor(cfg, WithArguments(cfg, x, b), reply)
            <==> Agree(patterns, "", Obj(x.call.arguments), Obj(b))
  {
    StoredArgumentsDependOn(patterns, x.call.arguments, b);
    if x.entry.Some? && Agree(patterns, "", Obj(x.call.arguments), Obj(b)) {
      DecisionsReadOnlyTheVisible(policy, patterns, RequestOf(x.call, x.entry.value), b);
    }
  }
}
