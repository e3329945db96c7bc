/** Every call comes to an end: no handler is ever stuck, and none makes more than a fixed number of moves. */
module ProtocolProgress {
  import opened Wrappers
  import opened Timestamps
  import opened ApprovalStore
  import opened Protocol
  import opened ProtocolMoves
  import opened ProtocolSteps
  import opened ProtocolInvariant
  import opened ProtocolTheorems

  /** The sleeps a wait can begin: ceil(timeout / POLL). */
  function MaxRounds(cfg: Config): nat { (cfg.timeout + POLL - 1) / POLL }

  /** How many moves a handler still has before it, at most. */
  function Rank(cfg: Config, pc: Pc): int {
    match pc
    case Begin => 12 + 4 * MaxRounds(cfg)
    case Creating(_) => 11 + 4 * MaxRounds(cfg)
    case Created(_) => 10 + 4 * MaxRounds(cfg)
    case WaitReading(_) => 9 + 4 * MaxRounds(cfg)
    case WaitRead(_, _) => 8 + 4 * MaxRounds(cfg)
    case Testing(_, _, _, rounds) => 7 + 4 * (MaxRounds(cfg) - rounds)
    case Sleeping(nap) => 10 + 4 * (MaxRounds(cfg) - nap.rounds)
    case Polling(nap) => 9 + 4 * (MaxRounds(cfg) - nap.rounds)
    case Polled(nap, _) => 8 + 4 * (MaxRounds(cfg) - nap.rounds)
    case TimeoutSweeping(_, _) => 6
    case AutoApproving(_, _) => 5
    case TimeoutReading(_) => 5
    case ResumeReading(_) => 11
    case ResumeRead(_, _) => 10
    case ResumeSweeping(_, _) => 9
    case ResumeRereading(_) => 8
    case Resuming(_, _) => 7
    case Dismissing(_, _, _) => 6
    case Dismissed(_, _, _) => 5
    case Applying(_, _) => 4
    case Forwarding(_) => 3
    case Calling(_) => 2
    case Recording(_, _) => 1
    case Done(_) => 0
  }

  /** The move of `h` brings it nearer to its end. */
  ghost predicate Falls(cfg: Config, s: State, s': State, h: nat)
    requires h in s.handlers
  {
    h in s'.handlers && Rank(cfg, s'.handlers[h].pc) < Rank(cfg, s.handlers[h].pc)
  }

  lemma PutFalls(cfg: Config, s: State, s1: State, h: nat, x: Handler)
    requires h in s.handlers && Rank(cfg, x.pc) < Rank(cfg, s.handlers[h].pc)
    ensures Falls(cfg, s, Put(s1, h, x), h)
  {
  }

  lemma StartFalls(cfg: Config, s: State, h: nat, choice: Choice)
    requires CanRun(cfg, s, h, choice) && s.handlers[h].pc.Begin?
    ensures Falls(cfg, s, RunNext(cfg, s, h, choice), h)
  {
    var x := s.handlers[h];
    if x.call.tool in s.registry {
      AdmittedFalls(cfg, s, h, choice);
    } else {
      UnknownMove(cfg, s, h, choice);
      PutFalls(cfg, s, s, h, x.(pc := Recording(UnknownToolEvent(cfg, x.call), NoSuchTool)));
    }
  }

  lemma AdmittedFalls(cfg: Config, s: State, h: nat, choice: Choice)
    requires CanRun(cfg, s, h, choice) && s.handlers[h].pc.Begin? && s.handlers[h].call.tool in s.registry
    ensures Falls(cfg, s, RunNext(cfg, s, h, choice), h)
  {
    var x := s.handlers[h];
    var entry := s.registry[x.call.tool];
    var x' := Admitted(cfg, x, entry);
    if NeedsApproval(cfg, s, x.call) {
      ParkMove(cfg, s, h, choice);
      PutFalls(cfg, s, s.(issued := s.issued[choice.id := h]), h,
               x'.(pc := Creating(NewRow(cfg, x', entry, x'.decision, choice.id, s.clock))));
    } else {
      DirectMove(cfg, s, h, choice);
      PutFalls(cfg, s, s, h, x'.(pc := Directly(cfg, x')));
    }
  }

  lemma CreateFalls(cfg: Config, s: State, h: nat, choice: Choice)
    requires h in s.handlers && s.handlers[h].pc.Creating?
    ensures Falls(cfg, s, RunNext(cfg, s, h, choice), h)
  {
    CreateMove(cfg, s, h, choice);
  }

  lemma CreatedFalls(cfg: Config, s: State, h: nat, choice: Choice)
    requires h in s.handlers && s.handlers[h].pc.Created?
    ensures Falls(cfg, s, RunNext(cfg, s, h, choice), h)
  {
    CreatedMove(cfg, s, h, choice);
  }

  lemma ReadFalls(cfg: Config, s: State, h: nat, choice: Choice, id: string)
    requires CanRun(cfg, s, h, choice) && Reads(s.handlers[h].pc, id)
    ensures Falls(cfg, s, RunNext(cfg, s, h, choice), h)
  {
    ReadMove(cfg, s, h, choice, id);
  }

  lemma SweepFalls(cfg: Config, s: State, h: nat, choice: Choice, moment: Time)
    requires CanRun(cfg, s, h, choice) && Sweeps(s.handlers[h].pc, moment)
    ensures Falls(cfg, s, RunNext(cfg, s, h, choice), h)
  {
    SweepMove(cfg, s, h, choice, moment);
  }

  lemma JoinFalls(cfg: Config, s: State, h: nat, choice: Choice)
    requires CanRun(cfg, s, h, choice) && s.handlers[h].pc.WaitRead?
    ensures Falls(cfg, s, RunNext(cfg, s, h, choice), h)
  {
    var x := s.handlers[h];
    JoinMove(cfg, s, h, choice);
    if Answered(x.pc.found) {
      PutFalls(cfg, s, s, h, x.(pc := Applying(x.pc.found, false)));
    } else {
      var s1 := WithEvent(s, x.pc.id);
      PutFalls(cfg, s, s1, h, x.(pc := Testing(x.pc.id, s1.events[x.pc.id], x.pc.found.value.expiresAt, 0)));
    }
  }

  lemma TestFalls(cfg: Config, s: State, h: nat, choice: Choice)
    requires CanRun(cfg, s, h, choice) && s.handlers[h].pc.Testing? && s.handlers[h].pc.rounds <= MaxRounds(cfg)
    ensures Falls(cfg, s, RunNext(cfg, s, h, choice), h)
  {
    TestMove(cfg, s, h, choice);
  }

  lemma WakeFalls(cfg: Config, s: State, h: nat, choice: Choice)
    requires CanRun(cfg, s, h, choice) && s.handlers[h].pc.Sleeping?
    ensures Falls(cfg, s, RunNext(cfg, s, h, choice), h)
  {
    WakeMove(cfg, s, h, choice);
  }

  lemma PollFalls(cfg: Config, s: State, h: nat, choice: Choice)
    requires CanRun(cfg, s, h, choice) && s.handlers[h].pc.Polled? && s.handlers[h].pc.nap.rounds <= MaxRounds(cfg)
    ensures Falls(cfg, s, RunNext(cfg, s, h, choice), h)
  {
    PollMove(cfg, s, h, choice);
  }

  lemma DecisionFalls(cfg: Config, s: State, h: nat, choice: Choice, id: string, approved: bool, approver: string,
                      note: Option<string>, at: Time)
    requires CanRun(cfg, s, h, choice) && Decides(s.handlers[h].pc, id, approved, approver, note, at)
    ensures Falls(cfg, s, RunNext(cfg, s, h, choice), h)
  {
    DecisionMove(cfg, s, h, choice, id, approved, approver, note, at);
  }

  lemma RetryFalls(cfg: Config, s: State, h: nat, choice: Choice)
    requires CanRun(cfg, s, h, choice)
    requires var pc := s.handlers[h].pc; pc.ResumeRead? || pc.Resuming? || pc.Dismissed?
    ensures Falls(cfg, s, RunNext(cfg, s, h, choice), h)
  {
    match s.handlers[h].pc
    case ResumeRead(_, _) => CheckMove(cfg, s, h, choice);
    case Resuming(_, _) => FindMove(cfg, s, h, choice);
    case Dismissed(_, _, _) => DismissedMove(cfg, s, h, choice);
  }

  lemma ApplyFalls(cfg: Config, s: State, h: nat, choice: Choice)
    requires CanRun(cfg, s, h, choice) && s.handlers[h].pc.Applying?
    ensures Falls(cfg, s, RunNext(cfg, s, h, choice), h)
  {
    var x := s.handlers[h];
    ApplyMove(cfg, s, h, choice);
    PutFalls(cfg, s, s, h, x.(pc := Applied(cfg, x, x.pc.found, x.pc.dismissal)));
  }

  lemma ForwardFalls(cfg: Config, s: State, h: nat, choice: Choice)
    requires CanRun(cfg, s, h, choice) && s.handlers[h].pc.Forwarding? && s.handlers[h].entry.Some?
    ensures Falls(cfg, s, RunNext(cfg, s, h, choice), h)
  {
    var x := s.handlers[h];
    ForwardMove(cfg, s, h, choice);
    PutFalls(cfg, s, s, h, Onward(cfg, x, x.entry.value, x.pc.approval));
  }

  lemma ReceiveFalls(cfg: Config, s: State, h: nat, choice: Choice)
    requires CanRun(cfg, s, h, choice) && s.handlers[h].pc.Calling?
    ensures Falls(cfg, s, RunNext(cfg, s, h, choice), h)
  {
    ReceiveMove(cfg, s, h, choice);
    PutFalls(cfg, s, s, h, Received(cfg, s.handlers[h], s.handlers[h].pc.approval, choice.response));
  }

  lemma RecordFalls(cfg: Config, s: State, h: nat, choice: Choice)
    requires CanRun(cfg, s, h, choice) && s.handlers[h].pc.Recording?
    ensures Falls(cfg, s, RunNext(cfg, s, h, choice), h)
  {
    RecordMove(cfg, s, h, choice);
  }

  /** A handler of a reachable state has begun no more sleeps than the timeout has intervals. */
  lemma RoundsAreBounded(cfg: Config, s: State, h: nat)
    requires Inv(cfg, s) && h in s.handlers
    ensures var pc := s.handlers[h].pc;
            && (pc.Testing? ==> pc.rounds <= MaxRounds(cfg))
            && (pc.Sleeping? || pc.Polling? || pc.Polled? ==> pc.nap.rounds <= MaxRounds(cfg))
    ensures 0 <= Rank(cfg, s.handlers[h].pc)
  {
    assert HandlerAt(cfg, s, h);
    var pc := s.handlers[h].pc;
    if pc.Testing? && pc.rounds > 0 { RoundsBound(pc.rounds, cfg.timeout); }
    if pc.Sleeping? || pc.Polling? || pc.Polled? {
      assert NapOk(cfg, s, h, s.handlers[h], pc.nap);
      RoundsBound(pc.nap.rounds, cfg.timeout);
    }
  }

  lemma RunFalls(cfg: Config, s: State, h: nat, choice: Choice)
    requires Inv(cfg, s) && CanRun(cfg, s, h, choice)
    ensures Falls(cfg, s, RunNext(cfg, s, h, choice), h)
  {
    RoundsAreBounded(cfg, s, h);
    assert HandlerAt(cfg, s, h);
    AnyFalls(cfg, s, h, choice);
  }

  lemma AnyFalls(cfg: Config, s: State, h: nat, choice: Choice)
    requires CanRun(cfg, s, h, choice)
    requires var x := s.handlers[h];
             && (x.pc.Forwarding? ==> x.entry.Some?)
             && (x.pc.Testing? ==> x.pc.rounds <= MaxRounds(cfg))
             && (x.pc.Polled? ==> x.pc.nap.rounds <= MaxRounds(cfg))
    ensures Falls(cfg, s, RunNext(cfg, s, h, choice), h)
  {
    match s.handlers[h].pc
    case Begin => StartFalls(cfg, s, h, choice);
    case Creating(_) => CreateFalls(cfg, s, h, choice);
    case Created(_) => CreatedFalls(cfg, s, h, choice);
    case WaitReading(id) => ReadFalls(cfg, s, h, choice, id);
    case Polling(nap) => ReadFalls(cfg, s, h, choice, nap.id);
    case TimeoutReading(id) => ReadFalls(cfg, s, h, choice, id);
    case ResumeReading(id) => ReadFalls(cfg, s, h, choice, id);
    case ResumeRereading(id) => ReadFalls(cfg, s, h, choice, id);
    case TimeoutSweeping(_, moment) => SweepFalls(cfg, s, h, choice, moment);
    case ResumeSweeping(_, moment) => SweepFalls(cfg, s, h, choice, moment);
    case AutoApproving(id, at) =>
      DecisionFalls(cfg, s, h, choice, id, true, TIMEOUT_APPROVER, AUTO_APPROVED, at);
    case Dismissing(id, _, at) =>
      DecisionFalls(cfg, s, h, choice, id, false, CLIENT_APPROVER, ABANDONED, at);
    case WaitRead(_, _) => JoinFalls(cfg, s, h, choice);
    case Testing(_, _, _, _) => TestFalls(cfg, s, h, choice);
    case Sleeping(_) => WakeFalls(cfg, s, h, choice);
    case Polled(_, _) => PollFalls(cfg, s, h, choice);
    case ResumeRead(_, _) => RetryFalls(cfg, s, h, choice);
    case Resuming(_, _) => RetryFalls(cfg, s, h, choice);
    case Dismissed(_, _, _) => RetryFalls(cfg, s, h, choice);
    case Applying(_, _) => ApplyFalls(cfg, s, h, choice);
    case Forwarding(_) => ForwardFalls(cfg, s, h, choice);
    case Calling(_) => ReceiveFalls(cfg, s, h, choice);
    case Recording(_, _) => RecordFalls(cfg, s, h, choice);
  }

  // ---- a bound for every call --------------------------------------------------------------

  /** How many of the first `n` moves are handler `h`'s own. */
  function MovesOf(t: Trace, h: nat, n: nat): nat
    requires n <= |t.moves|
  {
    if n == 0 then 0
    else MovesOf(t, h, n - 1) + (if t.moves[n - 1].Run? && t.moves[n - 1].h == h then 1 else 0)
  }

  /** The own moves of a handler and those it still has before it never exceed what it arrived with. */
  lemma {:induction false} MovesAreRationed(cfg: Config, t: Trace, h: nat, n: nat)
    requires IsRun(cfg, t) && n <= |t.moves|
    ensures h in t.states[n].handlers ==> MovesOf(t, h, n) + Rank(cfg, t.states[n].handlers[h].pc) <= Rank(cfg, Begin)
    ensures h !in t.states[n].handlers ==> MovesOf(t, h, n) == 0
    decreases n
  {
    if n > 0 {
      MovesAreRationed(cfg, t, h, n - 1);
      RunsKeepInv(cfg, t, n - 1);
      StepTaken(cfg, t, n - 1);
      MoveSpendsRank(cfg, t.states[n - 1], t.moves[n - 1], h);
    }
  }

  /** A move of `h` costs it rank, and anyone else's move leaves it its own. */
  lemma MoveSpendsRank(cfg: Config, s: State, m: Move, h: nat)
    requires Inv(cfg, s) && Enabled(cfg, s, m)
    ensures var s' := Next(cfg, s, m);
            && (m.Run? && m.h == h ==> h in s.handlers && Falls(cfg, s, s', h))
            && (!(m.Run? && m.h == h) && h in s.handlers ==> h in s'.handlers && s'.handlers[h] == s.handlers[h])
            && (!(m.Run? && m.h == h) && h !in s.handlers && h in s'.handlers ==> s'.handlers[h].pc == Begin)
  {
    if m.Run? {
      RunTouches(cfg, s, m.h, m.choice);
      RunFalls(cfg, s, m.h, m.choice);
    }
  }

  /** No call takes more than 12 + 4 * ceil(timeout / POLL) moves of its own, whatever anyone else does. */
  lemma EveryCallIsBounded(cfg: Config, t: Trace, h: nat)
    requires IsRun(cfg, t)
    ensures MovesOf(t, h, |t.moves|) <= 12 + 4 * MaxRounds(cfg)
  {
    MovesAreRationed(cfg, t, h, |t.moves|);
    RunsKeepInv(cfg, t, |t.moves|);
    if h in t.states[|t.moves|].handlers { RoundsAreBounded(cfg, t.states[|t.moves|], h); }
  }

  // ---- nobody is stuck -----------------------------------------------------------------------

  /** There is always an id to draw. */
  lemma {:induction false} AnotherId(taken: set<string>)
    ensures exists id: string :: id !in taken
  {
    var n := LongerThanAll(taken);
    var id := seq(n, i => '0');
    assert |id| == n;
  }

  lemma {:induction false} LongerThanAll(taken: set<string>) returns (n: nat)
    ensures forall other | other in taken :: |other| < n
    decreases taken
  {
    n := 0;
    if taken != {} {
      var other :| other in taken;
      n := LongerThanAll(taken - {other});
      n := if |other| < n then n else |other| + 1;
    }
  }

  /** When a handler can go on: at once, or when its timer is due. */
  function DueAt(s: State, h: nat): Time
    requires h in s.handlers
  {
    var pc := s.handlers[h].pc;
    if pc.Sleeping? && s.clock < pc.nap.wakeAt then pc.nap.wakeAt else s.clock
  }

  /** An unfinished call can always go on, at once or as soon as the clock has reached its timer. */
  lemma NeverStuck(cfg: Config, t: Trace, h: nat)
    requires IsRun(cfg, t) && h in Last(t).handlers && !Last(t).handlers[h].pc.Done?
    requires Last(t).handlers[h].pc.Begin? ==> Last(t).clock + cfg.timeout < DAYS * DAY
    ensures exists choice: Choice :: CanRun(cfg, Next(cfg, Last(t), Tick(DueAt(Last(t), h))), h, choice)
  {
    var s := Last(t);
    AnotherId(s.rows.Keys + s.issued.Keys + s.named + s.trail.Keys);
    var id: string :| id !in s.rows.Keys + s.issued.Keys + s.named + s.trail.Keys;
    assert CanRun(cfg, Next(cfg, s, Tick(DueAt(s, h))), h, Choice(id, None));
  }
}
