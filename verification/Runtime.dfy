/**
 * The gate as the classes that make it up: ApprovalService (approvals/service.py), Gateway (proxy/gateway.py)
 * and the event loop they run on. Every method carries out moves of the protocol, and the loop keeps the run
 * made so far; so what is proved of runs holds of these objects.
 */
module Runtime {
  import opened Wrappers
  import opened Json
  import opened Engine
  import opened Redaction
  import opened Registry
  import opened Timestamps
  import opened ApprovalStore
  import opened AuditStore
  import opened Protocol
  import opened ProtocolInvariant
  import opened ProtocolMoves
  import opened ProtocolSteps
  import opened ProtocolTheorems
  import opened ProtocolOutcomes

  /** A string outside a finite set: what drawing an id at random comes to. */
  method NewId(taken: set<string>) returns (id: string)
    ensures id !in taken
  {
    var rest := taken;
    id := "";
    while rest != {}
      invariant rest <= taken
      invariant forall other | other in taken && other !in rest :: |other| < |id|
      decreases rest
    {
      var other :| other in rest;
      rest := rest - {other};
      if |id| <= |other| { id := other + "0"; }
    }
  }

  /** Who is suspended at an await. */
  datatype Task = Caller(h: nat) | Decider(id: string) | Page

  /** The moves only the task itself makes; nobody draws the id a decider has submitted. */
  predicate Owns(s: State, me: Task, m: Move) {
    match me
    case Caller(h) => m.Run? && m.h == h
    case Decider(id) =>
      (m.Notify? && m.id == id && s.notices[id] <= 1) || (m.Run? && m.choice.id == id && id !in s.issued)
    case Page => false
  }

  /** What a suspended task finds when it resumes. */
  ghost predicate Undisturbed(s: State, s': State, me: Task) {
    && s.clock <= s'.clock
    && match me
       case Caller(h) => h in s.handlers ==> h in s'.handlers && s'.handlers[h] == s.handlers[h]
       case Decider(id) =>
         && (id in s.notices ==> id in s'.notices)
         && (id in s.rows ==> id in s'.rows) && (id !in s.issued ==> id !in s'.issued)
       case Page => true
  }

  lemma StartIssues(cfg: Config, s: State, h: nat, choice: Choice)
    requires CanRun(cfg, s, h, choice) && s.handlers[h].pc.Begin?
    ensures forall id | id in Start(cfg, s, h, choice).issued :: id in s.issued || id == choice.id
  {
  }

  lemma OthersDisturbNothing(cfg: Config, s: State, me: Task, m: Move)
    requires Enabled(cfg, s, m) && !Owns(s, me, m)
    ensures Undisturbed(s, Next(cfg, s, m), me)
  {
    if m.Run? {
      RunTouches(cfg, s, m.h, m.choice);
      Dispatch(cfg, s, m.h, m.choice);
      if s.handlers[m.h].pc.Begin? { StartIssues(cfg, s, m.h, m.choice); }
    }
  }

  /** The sleep a test of the wait loop begins. */
  function NapFrom(pc: Pc, now: Time): Nap
    requires pc.Testing?
  {
    NextNap(pc.id, pc.wake, pc.deadline, pc.rounds, now)
  }

  // ---- the event loop ----------------------------------------------------------------

  /**
   * The loop and everything that runs on it. `world` is the whole process as the protocol sees it, other
   * tasks included; `run` is how it came about.
   */
  class EventLoop {
    const cfg: Config
    const store: SqliteApprovalStore
    const audit: SqliteAuditStore
    const service: ApprovalService
    const gateway: Gateway
    var world: State
    ghost var run: Trace

    /** The objects were built for each other, from one configuration. */
    ghost predicate Wired() {
      && service.store == store && service.timeout == cfg.timeout
      && service.approveOnTimeout == cfg.approveOnTimeout
      && gateway.approvals == service && gateway.audit == audit && gateway.auditing == cfg.auditOn
      && gateway.connections == cfg.connections && gateway.mode == cfg.mode
      && Deploys(cfg, gateway.policy, gateway.redact)
    }

    /** The run so far is one of the protocol's, and has led here. */
    ghost predicate Running() reads this { IsRun(cfg, run) && Last(run) == world }

    /** The objects hold what the protocol says they hold. */
    ghost predicate Synced() reads this, store, audit, service, gateway {
      (&& Wired() && Running()
       && store.rows == world.rows && audit.trail == world.trail
       && service.events == world.events && service.made == world.owners && service.fired == world.fired
       && gateway.Current() == world.registry) == true
    }

    /** Handler `h` is where and what `x` says. */
    ghost predicate Has(h: nat, x: Handler) reads this { h in world.handlers && world.handlers[h] == x }

    /** Handler `h` has finished the call of `x` with this reply, and it is on record if auditing is on. */
    ghost predicate Answers(h: nat, x: Handler, reply: Reply) reads this, audit {
      h in world.handlers
      && var y := world.handlers[h];
         && y.call == x.call && y.entry == x.entry && y.decision == x.decision && y.pc == Done(reply)
         && (cfg.auditOn && !reply.NotOnFile? && !reply.Vanished? ==>
               |y.wrote| == 1 && y.wrote[0] in audit.trail && audit.trail[y.wrote[0]] == EventFor(cfg, y, reply))
    }

    /** The upstream calls of handler `h`. */
    ghost function SentBy(h: nat): seq<Sent> reads this { if h in world.handlers then world.handlers[h].sent else [] }

    /** In the run so far, handler `h` has read its request as pending. */
    ghost predicate HasReadPending(h: nat) reads this { run.states != [] && ReadPending(run, |run.states| - 1, h) }

    function Now(): Time reads this { world.clock }

    constructor (cfg: Config, gateway: Gateway, world: State)
      requires Init(world)
      requires gateway.approvals.timeout == cfg.timeout && gateway.approvals.approveOnTimeout == cfg.approveOnTimeout
      requires gateway.auditing == cfg.auditOn && gateway.connections == cfg.connections && gateway.mode == cfg.mode
      requires Deploys(cfg, gateway.policy, gateway.redact)
      requires gateway.approvals.store.rows == world.rows && gateway.audit.trail == world.trail
      requires gateway.approvals.events == map[] && gateway.approvals.made == [] && gateway.approvals.fired == {}
      requires gateway.Current() == world.registry
      ensures Synced() && this.cfg == cfg && this.gateway == gateway && this.world == world
    {
      this.cfg := cfg;
      this.gateway := gateway;
      this.service := gateway.approvals;
      this.store := gateway.approvals.store;
      this.audit := gateway.audit;
      this.world := world;
      this.run := Trace([world], []);
    }

    /** One move of the protocol. */
    method Step(m: Move)
      requires Running() && Enabled(cfg, world, m)
      modifies this
      ensures Running() && Begins(old(run), run) && world == Next(cfg, old(world), m)
      ensures |run.states| == |old(run.states)| + 1
    {
      ExtendedIsRun(cfg, run, m);
      run := Extended(cfg, run, m);
      world := Next(cfg, world, m);
    }

    /** An await of task `me`: any number of moves by anyone else. */
    method Yield(me: Task)
      requires Synced()
      modifies this, store, audit, service, gateway
      ensures Synced() && Begins(old(run), run) && Undisturbed(old(world), world, me)
    {
      var others: seq<Move> := *;
      for i := 0 to |others|
        invariant Synced() && Begins(old(run), run) && Undisturbed(old(world), world, me)
      {
        var m := others[i];
        if Enabled(cfg, world, m) && !Owns(world, me, m) {
          OthersDisturbNothing(cfg, world, me, m);
          Step(m);
          store.rows := world.rows;
          audit.trail := world.trail;
          service.events, service.made, service.fired := world.events, world.owners, world.fired;
          gateway.refreshed := Some(world.registry);
        }
      }
    }

    /** The number a page shows of the audit trail; the null store shows none. */
    method CountEvents() returns (n: nat)
      requires Synced()
      modifies this, store, audit, service, gateway
      ensures Synced() && Begins(old(run), run)
      ensures n == if cfg.auditOn then |run.states[0].trail| + |CallsOnRecord(world)| else 0
    {
      Yield(Page);
      n := 0;
      if cfg.auditOn {
        n := audit.Count();
        TrailCountsCalls(cfg, run, |run.states| - 1);
      }
    }

    /** `move_on_after` around `event.wait()`: the sleep ends with its event or, at the latest, with its timer. */
    method Sleep(h: nat, ghost x: Handler)
      requires Synced() && Has(h, x) && x.pc.Testing? && Now() < x.pc.deadline
      modifies this, store, audit, service, gateway
      ensures Synced() && Begins(old(run), run)
      ensures Has(h, x.(pc := Polling(NapFrom(x.pc, old(Now())))))
    {
      TestMove(cfg, world, h, NOTHING);
      Step(Run(h, NOTHING));
      Yield(Caller(h));
      var nap := world.handlers[h].pc.nap;
      if nap.event !in service.fired && world.clock < nap.wakeAt { Step(Tick(nap.wakeAt)); }
      WakeMove(cfg, world, h, NOTHING);
      Step(Run(h, NOTHING));
    }
  }

  /** The table is one the run went through between these two moments. */
  ghost predicate Met(before: Trace, now: Trace, rows: Table) {
    exists k :: |before.states| <= k + 1 && k < |now.states| && 0 <= k && now.states[k].rows == rows
  }

  lemma MetHere(before: Trace, mid: Trace, now: Trace)
    requires before.states != [] && Begins(before, mid) && Begins(mid, now)
    ensures Met(before, now, Last(mid).rows)
  {
    assert now.states[|mid.states| - 1] == Last(mid);
  }

  lemma MetEarlier(before: Trace, mid: Trace, now: Trace, rows: Table)
    requires Met(before, mid, rows) && Begins(mid, now)
    ensures Met(before, now, rows)
  {
    var k :| |before.states| <= k + 1 && k < |mid.states| && 0 <= k && mid.states[k].rows == rows;
    assert now.states[k] == mid.states[k];
  }

  /** What is resolved in the one table is the same in the other. */
  ghost predicate SettledSince(rows: Table, now: Table) {
    forall id | id in rows && rows[id].status.IsResolved() :: id in now && now[id] == rows[id]
  }

  /** The row is this one's, and if it is resolved it is stored so. */
  predicate IsRowOf(rows: Table, id: string, row: Row) {
    row.id == id && (row.status.IsResolved() ==> Find(rows, id) == Some(row))
  }

  /** What a longer run leaves of a shorter one: rows evolve, events stay, and every row has its id. */
  lemma Since(cfg: Config, before: Trace, now: Trace)
    requires IsRun(cfg, now) && before.states != [] && Begins(before, now)
    ensures Evolves(Last(before).rows, Last(now).rows) && Extends(Last(before).trail, Last(now).trail)
    ensures RowsOk(Last(now))
  {
    var i, j := |before.states| - 1, |now.states| - 1;
    RowsEvolveAlong(cfg, now, i, j);
    TrailOnlyGrows(cfg, now, i, j);
    RunsKeepInv(cfg, now, j);
  }

  /** What the gateway passes to `open` is the call and what the policy said of it. */
  predicate AsksFor(cfg: Config, s: State, x: Handler, tool: string, upstream: string, arguments: Arguments,
                    reason: Option<string>, clientName: Option<string>)
  {
    && tool == x.call.tool && arguments == x.call.arguments && clientName == x.call.clientName
    && tool in s.registry && upstream == s.registry[tool].upstream
    && reason == cfg.decide(RequestOf(x.call, s.registry[tool])).reason
  }

  /** A row about to be stored has an id nobody has stored. */
  lemma UnstoredYet(cfg: Config, t: Trace, h: nat)
    requires IsRun(cfg, t) && h in Last(t).handlers && Last(t).handlers[h].pc.Creating?
    ensures Last(t).handlers[h].pc.row.id !in Last(t).rows
  {
    RunsKeepInv(cfg, t, |t.states| - 1);
    assert HandlerAt(cfg, Last(t), h);
  }

  /**
   * The call of `h`, begun after `s` and finished by `s'`, left one new event that tells what its client was
   * told; none if auditing is off or it was a retry naming no stored approval.
   */
  ghost predicate OneEvent(cfg: Config, s: State, s': State, h: nat)
    requires h in s'.handlers && s'.handlers[h].pc.Done?
  {
    var x := s'.handlers[h];
    && |EventsBy(s', h)| == (if cfg.auditOn && !x.pc.reply.NotOnFile? then 1 else 0)
    && forall e | e in EventsBy(s', h) ::
         && e !in s.trail && e in s'.trail
         && Tells(cfg, x, s'.trail[e], x.pc.reply) && Reports(cfg, x, s'.trail[e], x.pc.reply)
  }

  lemma CallIsAudited(cfg: Config, before: Trace, now: Trace, h: nat)
    requires IsRun(cfg, now) && before.states != [] && Begins(before, now) && h !in Last(before).handlers
    requires h in Last(now).handlers && Last(now).handlers[h].pc.Done?
    ensures OneEvent(cfg, Last(before), Last(now), h)
  {
    var i, j := |before.states| - 1, |now.states| - 1;
    ExactlyOneEvent(cfg, now, j, h);
    EventsAreNew(cfg, now, i, j);
    RunsKeepInv(cfg, now, i);
    forall e | e in EventsBy(Last(now), h) ensures e !in Last(before).trail {
      assert e !in now.states[i].author;
    }
  }

  /** An answered call is on record as its answer calls for. */
  lemma AnswerIsOnRecord(cfg: Config, t: Trace, h: nat)
    requires IsRun(cfg, t) && h in Last(t).handlers && Last(t).handlers[h].pc.Done?
    ensures var x := Last(t).handlers[h];
            cfg.auditOn && !x.pc.reply.NotOnFile? && !x.pc.reply.Vanished? ==>
              |x.wrote| == 1 && x.wrote[0] in Last(t).trail
              && Last(t).trail[x.wrote[0]] == EventFor(cfg, x, x.pc.reply)
  {
    RunsKeepInv(cfg, t, |t.states| - 1);
    assert HandlerAt(cfg, Last(t), h);
    var wrote := Last(t).handlers[h].wrote;
    if wrote != [] { assert wrote[0] in wrote; }
  }

  /** What the gateway's methods are given is what their handler is about. */
  predicate Concerns(x: Handler, entry: NamespacedTool, request: PolicyRequest, decision: Decision,
                     clientName: Option<string>)
  {
    && x.entry == Some(entry) && request == RequestOf(x.call, entry) && x.decision == decision
    && clientName == x.call.clientName
  }

  /** The row a handler has created is stored as it asked. */
  lemma StoredAsCreated(cfg: Config, t: Trace, h: nat)
    requires IsRun(cfg, t) && h in Last(t).handlers && Last(t).handlers[h].pc.Created?
    ensures var row := Last(t).handlers[h].pc.row;
            row.id in Last(t).rows && SameRequest(row, Last(t).rows[row.id])
  {
    RunsKeepInv(cfg, t, |t.states| - 1);
    assert HandlerAt(cfg, Last(t), h);
  }

  /** A refusal on a row is filed by whether its call has read the row as pending. */
  lemma FiledAsRead(cfg: Config, t: Trace, h: nat)
    requires IsRun(cfg, t) && h in Last(t).handlers && Last(t).handlers[h].pc.Done?
    ensures LabelFits(Last(t).handlers[h].pc.reply, ReadPending(t, |t.states| - 1, h))
  {
    LabelsFit(cfg, t, |t.states| - 1, h);
  }

  /** A handler about to act has a resolved row in hand. */
  lemma SettledRow(cfg: Config, t: Trace, h: nat)
    requires IsRun(cfg, t) && h in Last(t).handlers && Last(t).handlers[h].pc.Applying?
    ensures var found := Last(t).handlers[h].pc.found;
            found.Some? && found.value.status.IsResolved() && Find(Last(t).rows, found.value.id) == found
  {
    NothingVanishes(cfg, t, |t.states| - 1, h);
    ActingMeansFinal(cfg, t, |t.states| - 1, h, Last(t).handlers[h].pc.found.value);
  }

  /** A poll that finds its row pending comes after a whole sleep. */
  lemma NapElapsed(cfg: Config, t: Trace, h: nat)
    requires IsRun(cfg, t) && h in Last(t).handlers && Last(t).handlers[h].pc.Polled?
    ensures var pc := Last(t).handlers[h].pc;
            pc.found.Some? && pc.found.value.status.Pending? ==> pc.nap.wakeAt <= Last(t).clock
  {
    WaitIsBounded(cfg, t, |t.states| - 1, h, Last(t).handlers[h].pc.nap);
  }

  /** Whoever sweeps for a row leaves it resolved. */
  lemma SweepSettles(cfg: Config, t: Trace, h: nat)
    requires IsRun(cfg, t) && h in Last(t).handlers
    requires Last(t).handlers[h].pc.TimeoutSweeping? || Last(t).handlers[h].pc.ResumeSweeping?
    ensures var pc := Last(t).handlers[h].pc;
            pc.id in Last(t).rows && Swept(Last(t).rows, pc.moment)[pc.id].status.IsResolved()
  {
    RunsKeepInv(cfg, t, |t.states| - 1);
    assert HandlerAt(cfg, Last(t), h);
    SweepSettlesRow(Last(t).rows, Last(t).handlers[h].pc.id, Last(t).handlers[h].pc.moment);
  }

  lemma SweepSettlesRow(rows: Table, id: string, moment: Time)
    requires id in rows && rows[id].expiresAt <= moment
    ensures Swept(rows, moment)[id].status.IsResolved()
  {
    SweepExpiresExactly(rows, moment);
  }

  /** Nothing the one table held is overdue in the other. */
  ghost predicate NoneLeft(rows: Table, now: Table, moment: Time) {
    forall id | id in rows :: id in now && !now[id].IsExpiredAt(moment)
  }

  /** What a sweep has settled stays settled. */
  lemma SweptForGood(rows: Table, moment: Time, now: Table)
    requires Evolves(Swept(rows, moment), now)
    ensures NoneLeft(rows, now, moment)
  {
    SweepExpiresExactly(rows, moment);
    forall id | id in rows ensures id in now && !now[id].IsExpiredAt(moment) {
      assert !Swept(rows, moment)[id].IsExpiredAt(moment);
    }
  }

  lemma NoneLeftSince(rows: Table, mid: Table, now: Table, moment: Time)
    requires Evolves(rows, mid) && NoneLeft(mid, now, moment)
    ensures NoneLeft(rows, now, moment)
  {
  }

  class ApprovalService {
    const store: SqliteApprovalStore
    const timeout: nat
    const approveOnTimeout: bool
    var events: map<string, nat>
    var made: seq<string>
    var fired: set<nat>

    constructor (store: SqliteApprovalStore, timeout: nat, approveOnTimeout: bool)
      ensures this.store == store && this.timeout == timeout && this.approveOnTimeout == approveOnTimeout
      ensures events == map[] && made == [] && fired == {}
    {
      this.store, this.timeout, this.approveOnTimeout := store, timeout, approveOnTimeout;
      events, made, fired := map[], [], {};
    }

    /** The pending request of a call, under an id drawn for it. */
    method Draft(loop: EventLoop, h: nat, ghost x: Handler, tool: string, upstream: string, arguments: Arguments,
                 reason: Option<string>, clientName: Option<string>) returns (request: Row)
      requires loop.Synced() && loop.service == this && loop.Has(h, x) && x.pc.Begin?
      requires NeedsApproval(loop.cfg, loop.world, x.call) && loop.Now() + timeout < DAYS * DAY
      requires AsksFor(loop.cfg, loop.world, x, tool, upstream, arguments, reason, clientName)
      modifies loop
      ensures loop.Synced() && Begins(old(loop.run), loop.run)
      ensures loop.Has(h, Admitted(loop.cfg, x, old(loop.world).registry[tool]).(pc := Creating(request)))
      ensures request == Row(request.id, old(loop.Now()), old(loop.Now()) + timeout, Status.Pending, tool, upstream,
                             arguments, reason, clientName, None, None, None)
      ensures request.id !in store.rows
    {
      var now := loop.Now();
      var id := NewId(loop.world.rows.Keys + loop.world.issued.Keys + loop.world.named);
      request := Row(id, now, now + timeout, Status.Pending, tool, upstream, arguments, reason, clientName,
                     None, None, None);
      ParkMove(loop.cfg, loop.world, h, Choice(id, None));
      loop.Step(Run(h, Choice(id, None)));
    }

    /** `open`: from the call to its stored request and the request's event. */
    method Open(loop: EventLoop, h: nat, ghost x: Handler, tool: string, upstream: string, arguments: Arguments,
                reason: Option<string>, clientName: Option<string>) returns (request: Row)
      requires loop.Synced() && loop.service == this && loop.Has(h, x) && x.pc.Begin?
      requires NeedsApproval(loop.cfg, loop.world, x.call) && loop.Now() + timeout < DAYS * DAY
      requires AsksFor(loop.cfg, loop.world, x, tool, upstream, arguments, reason, clientName)
      modifies loop, loop.store, loop.audit, loop.service, loop.gateway
      ensures loop.Synced() && Begins(old(loop.run), loop.run)
      ensures var y := Admitted(loop.cfg, x, old(loop.world).registry[tool]);
              loop.Has(h, y.(pc := Parked(loop.cfg, y, request)))
      ensures request == Row(request.id, old(loop.Now()), old(loop.Now()) + timeout, Status.Pending, tool, upstream,
                             arguments, reason, clientName, None, None, None)
      ensures request.id in events && request.id !in old(store.rows)
      ensures request.id in store.rows && SameRequest(request, store.rows[request.id])
    {
      request := Draft(loop, h, x, tool, upstream, arguments, reason, clientName);
      Park(loop, h, loop.world.handlers[h], request);
    }

    /** Store a request, then make its event. */
    method Park(loop: EventLoop, h: nat, ghost x: Handler, request: Row)
      requires loop.Synced() && loop.service == this && loop.Has(h, x) && x.pc == Creating(request)
      modifies loop, loop.store, loop.audit, loop.service, loop.gateway
      ensures loop.Synced() && Begins(old(loop.run), loop.run)
      ensures loop.Has(h, x.(pc := Parked(loop.cfg, x, request))) && request.id in events
      ensures request.id in store.rows && SameRequest(request, store.rows[request.id])
    {
      Create(loop, h, x, request);
      Announce(loop, h, x.(pc := Created(request)), request);
    }

    /** The request's event enters the table. */
    method Announce(loop: EventLoop, h: nat, ghost x: Handler, request: Row)
      requires loop.Synced() && loop.service == this && loop.Has(h, x) && x.pc == Created(request)
      modifies loop, this
      ensures loop.Synced() && Begins(old(loop.run), loop.run)
      ensures loop.Has(h, x.(pc := Parked(loop.cfg, x, request))) && request.id in events
    {
      events, made := events[request.id := |made|], made + [request.id];
      CreatedMove(loop.cfg, loop.world, h, NOTHING);
      loop.Step(Run(h, NOTHING));
    }

    /** The awaited insert. */
    method Create(loop: EventLoop, h: nat, ghost x: Handler, request: Row)
      requires loop.Synced() && loop.service == this && loop.Has(h, x) && x.pc == Creating(request)
      modifies loop, loop.store, loop.audit, loop.service, loop.gateway
      ensures loop.Synced() && Begins(old(loop.run), loop.run)
      ensures loop.Has(h, x.(pc := Created(request)))
      ensures request.id in store.rows && SameRequest(request, store.rows[request.id])
    {
      loop.Yield(Caller(h));
      UnstoredYet(loop.cfg, loop.run, h);
      store.Create(request);
      CreateMove(loop.cfg, loop.world, h, NOTHING);
      loop.Step(Run(h, NOTHING));
      loop.Yield(Caller(h));
      StoredAsCreated(loop.cfg, loop.run, h);
    }

    /** The awaited read: a row that was resolved reads back unchanged. */
    method Fetch(loop: EventLoop, h: nat, ghost x: Handler, id: string) returns (row: Option<Row>)
      requires loop.Synced() && loop.service == this && loop.Has(h, x) && Reads(x.pc, id)
      modifies loop, loop.store, loop.audit, loop.service, loop.gateway
      ensures loop.Synced() && Begins(old(loop.run), loop.run)
      ensures loop.Has(h, x.(pc := AfterRead(x.pc, row))) && old(loop.Now()) <= loop.Now()
      ensures StoredResolved(old(loop.world), id) ==> row == Some(old(store.rows)[id])
      ensures id in old(store.rows) ==> row.Some?
      ensures row.Some? ==> IsRowOf(store.rows, id, row.value)
    {
      loop.Yield(Caller(h));
      row := store.Get(id);
      ghost var mid := loop.run;
      Since(loop.cfg, old(loop.run), mid);
      ReadMove(loop.cfg, loop.world, h, NOTHING, id);
      loop.Step(Run(h, NOTHING));
      loop.Yield(Caller(h));
      Since(loop.cfg, mid, loop.run);
    }

    /** The awaited sweep, of a table in which the handler's row is overdue or settled. */
    method Sweep(loop: EventLoop, h: nat, ghost x: Handler, moment: Time) returns (ghost met: Table)
      requires loop.Synced() && loop.service == this && loop.Has(h, x) && Sweeps(x.pc, moment)
      modifies loop, loop.store, loop.audit, loop.service, loop.gateway
      ensures loop.Synced() && Begins(old(loop.run), loop.run)
      ensures loop.Has(h, x.(pc := AfterSweep(x.pc))) && old(loop.Now()) <= loop.Now()
      ensures Met(old(loop.run), loop.run, met) && SettledSince(Swept(met, moment), store.rows)
      ensures x.pc.id in met && Swept(met, moment)[x.pc.id].status.IsResolved()
    {
      loop.Yield(Caller(h));
      met := store.rows;
      ghost var mid := loop.run;
      SweepNow(loop, h, x, moment);
      ghost var after := loop.run;
      loop.Yield(Caller(h));
      MetHere(old(loop.run), mid, loop.run);
      Since(loop.cfg, after, loop.run);
    }

    /** The sweep itself, one transaction. */
    method SweepNow(loop: EventLoop, h: nat, ghost x: Handler, moment: Time)
      requires loop.Synced() && loop.service == this && loop.Has(h, x) && Sweeps(x.pc, moment)
      modifies loop, store
      ensures loop.Synced() && Begins(old(loop.run), loop.run) && loop.Now() == old(loop.Now())
      ensures loop.Has(h, x.(pc := AfterSweep(x.pc)))
      ensures store.rows == Swept(old(store.rows), moment)
      ensures x.pc.id in old(store.rows) && store.rows[x.pc.id].status.IsResolved()
    {
      SweepSettles(loop.cfg, loop.run, h);
      SweepMove(loop.cfg, loop.world, h, NOTHING, moment);
      var _ := store.ExpireOverdue(moment);
      loop.Step(Run(h, NOTHING));
    }

    /** The awaited decision of a handler, on the table it met. */
    method Settle(loop: EventLoop, h: nat, ghost x: Handler, id: string, approved: bool, approver: string,
                  note: Option<string>, at: Time) returns (row: Option<Row>, ghost met: Table)
      requires loop.Synced() && loop.service == this && loop.Has(h, x)
      requires Decides(x.pc, id, approved, approver, note, at)
      modifies loop, loop.store, loop.audit, loop.service, loop.gateway
      ensures loop.Synced() && Begins(old(loop.run), loop.run)
      ensures loop.Has(h, x.(pc := AfterDecision(x.pc, row)))
      ensures Met(old(loop.run), loop.run, met) && row == Find(Resolved(met, id, approved, approver, note, at), id)
      ensures row.Some? ==> row.value.status.IsResolved() && IsRowOf(store.rows, id, row.value)
    {
      loop.Yield(Caller(h));
      met := store.rows;
      ghost var mid := loop.run;
      row := SettleNow(loop, h, x, id, approved, approver, note, at);
      ghost var after := loop.run;
      loop.Yield(Caller(h));
      MetHere(old(loop.run), mid, loop.run);
      Since(loop.cfg, after, loop.run);
    }

    /** The decision itself, one transaction. */
    method SettleNow(loop: EventLoop, h: nat, ghost x: Handler, id: string, approved: bool, approver: string,
                     note: Option<string>, at: Time) returns (row: Option<Row>)
      requires loop.Synced() && loop.service == this && loop.Has(h, x)
      requires Decides(x.pc, id, approved, approver, note, at)
      modifies loop, store
      ensures loop.Synced() && Begins(old(loop.run), loop.run)
      ensures loop.Has(h, x.(pc := AfterDecision(x.pc, row)))
      ensures store.rows == Resolved(old(store.rows), id, approved, approver, note, at) && row == Find(store.rows, id)
      ensures row.Some? ==> row.value.status.IsResolved()
    {
      DecisionMove(loop.cfg, loop.world, h, NOTHING, id, approved, approver, note, at);
      row := store.Resolve(id, approved, approver, note, at);
      loop.Step(Run(h, NOTHING));
    }

    /** `_settle_timeout`: the loop's test has found the deadline passed. */
    method SettleTimeout(loop: EventLoop, h: nat, ghost x: Handler, id: string)
      returns (settled: Option<Row>, ghost met: Table)
      requires loop.Synced() && loop.service == this && loop.Has(h, x)
      requires x.pc.Testing? && x.pc.id == id && x.pc.deadline <= loop.Now()
      modifies loop, loop.store, loop.audit, loop.service, loop.gateway
      ensures loop.Synced() && Begins(old(loop.run), loop.run)
      ensures loop.Has(h, x.(pc := Applying(settled, false)))
      ensures Met(old(loop.run), loop.run, met) && settled == Find(TimedOut(met, id, old(loop.Now())), id)
      ensures settled.Some? ==> settled.value.status.IsResolved() && IsRowOf(store.rows, id, settled.value)
    {
      var now := loop.Now();
      TimeUp(loop, h, x, id);
      if approveOnTimeout {
        settled, met := Settle(loop, h, x.(pc := AutoApproving(id, now)), id, true, TIMEOUT_APPROVER,
                               AUTO_APPROVED, now);
      } else {
        settled, met := Expire(loop, h, x.(pc := TimeoutSweeping(id, now)), id, now);
      }
    }

    /** What the timeout makes of the table: approval of this row, or expiry of all that is overdue. */
    function TimedOut(rows: Table, id: string, now: Time): Table {
      if approveOnTimeout then Resolved(rows, id, true, TIMEOUT_APPROVER, AUTO_APPROVED, now)
      else Swept(rows, now)
    }

    /** The deadline has passed: the event leaves the table. */
    method TimeUp(loop: EventLoop, h: nat, ghost x: Handler, id: string)
      requires loop.Synced() && loop.service == this && loop.Has(h, x)
      requires x.pc.Testing? && x.pc.id == id && x.pc.deadline <= loop.Now()
      modifies loop, this
      ensures loop.Synced() && Begins(old(loop.run), loop.run)
      ensures loop.Has(h, x.(pc := TimedOutAt(loop.cfg, id, old(loop.Now()))))
    {
      events := events - {id};
      TestMove(loop.cfg, loop.world, h, NOTHING);
      loop.Step(Run(h, NOTHING));
    }

    /** Sweep, then read the row the sweep has settled, if nobody had before. */
    method Expire(loop: EventLoop, h: nat, ghost x: Handler, id: string, moment: Time)
      returns (settled: Option<Row>, ghost met: Table)
      requires loop.Synced() && loop.service == this && loop.Has(h, x) && x.pc == TimeoutSweeping(id, moment)
      modifies loop, loop.store, loop.audit, loop.service, loop.gateway
      ensures loop.Synced() && Begins(old(loop.run), loop.run)
      ensures loop.Has(h, x.(pc := Applying(settled, false)))
      ensures Met(old(loop.run), loop.run, met) && settled == Find(Swept(met, moment), id)
      ensures settled.Some? ==> settled.value.status.IsResolved() && IsRowOf(store.rows, id, settled.value)
    {
      met := Sweep(loop, h, x, moment);
      ghost var swept := loop.run;
      settled := Fetch(loop, h, x.(pc := TimeoutReading(id)), id);
      MetEarlier(old(loop.run), swept, loop.run, met);
    }

    /** `wait`: it ends, and the row it comes back with is the one asked for, settled, and stored so. */
    method Wait(loop: EventLoop, h: nat, ghost x: Handler, id: string) returns (settled: Option<Row>)
      requires loop.Synced() && loop.service == this && loop.Has(h, x) && x.pc == WaitReading(id)
      modifies loop, loop.store, loop.audit, loop.service, loop.gateway
      ensures loop.Synced() && Begins(old(loop.run), loop.run)
      ensures loop.Has(h, x.(pc := Applying(settled, false)))
      ensures settled.Some? && settled.value.id == id && settled.value.status.IsResolved()
      ensures id in store.rows && store.rows[id] == settled.value
    {
      var request := Fetch(loop, h, x, id);
      if request.None? || request.value.status.IsResolved() {
        JoinMove(loop.cfg, loop.world, h, NOTHING);
        loop.Step(Run(h, NOTHING));
        settled := request;
      } else {
        settled := WaitLoop(loop, h, x.(pc := WaitRead(id, request)), id, request.value.expiresAt);
      }
      SettledRow(loop.cfg, loop.run, h);
    }

    /** Wait on the event there is, or on a new one. */
    method JoinEvent(loop: EventLoop, h: nat, ghost x: Handler, id: string) returns (wake: nat)
      requires loop.Synced() && loop.service == this && loop.Has(h, x)
      requires x.pc.WaitRead? && x.pc.id == id && x.pc.found.Some? && !x.pc.found.value.status.IsResolved()
      modifies loop, this
      ensures loop.Synced() && Begins(old(loop.run), loop.run)
      ensures loop.Has(h, x.(pc := Testing(id, wake, x.pc.found.value.expiresAt, 0)))
    {
      if id in events {
        wake := events[id];
      } else {
        wake := |made|;
        events, made := events[id := wake], made + [id];
      }
      JoinMove(loop.cfg, loop.world, h, NOTHING);
      loop.Step(Run(h, NOTHING));
    }

    /** After a poll: a missing or resolved row ends the wait, and a resolved one its event. */
    method Look(loop: EventLoop, h: nat, ghost x: Handler, current: Option<Row>) returns (answered: bool)
      requires loop.Synced() && loop.service == this && loop.Has(h, x) && x.pc.Polled? && x.pc.found == current
      modifies loop, this
      ensures loop.Synced() && Begins(old(loop.run), loop.run) && loop.Now() == old(loop.Now())
      ensures answered == (current.None? || current.value.status.IsResolved())
      ensures loop.Has(h, x.(pc := if answered then Applying(current, false)
                                   else Testing(x.pc.nap.id, x.pc.nap.event, x.pc.nap.deadline, x.pc.nap.rounds)))
    {
      if current.None? {
        answered := true;
      } else if current.value.status.IsResolved() {
        events := events - {loop.world.handlers[h].pc.nap.id};
        answered := true;
      } else {
        answered := false;
      }
      PollMove(loop.cfg, loop.world, h, NOTHING);
      loop.Step(Run(h, NOTHING));
    }

    /** One round of the loop of `wait`; a round that finds no answer has taken time. */
    method Round(loop: EventLoop, h: nat, ghost x: Handler, id: string)
      returns (current: Option<Row>, answered: bool)
      requires loop.Synced() && loop.service == this && loop.Has(h, x)
      requires x.pc.Testing? && x.pc.id == id && loop.Now() < x.pc.deadline
      modifies loop, loop.store, loop.audit, loop.service, loop.gateway
      ensures loop.Synced() && Begins(old(loop.run), loop.run)
      ensures loop.Has(h, x.(pc := if answered then Applying(current, false)
                                   else Testing(id, x.pc.wake, x.pc.deadline, x.pc.rounds + 1)))
      ensures !answered ==> old(loop.Now()) < loop.Now()
      ensures current.Some? ==> IsRowOf(store.rows, id, current.value)
    {
      ghost var nap := NapFrom(x.pc, loop.Now());
      current := Poll(loop, h, x, id);
      answered := Look(loop, h, x.(pc := Polled(nap, current)), current);
    }

    /** Sleep, then read the row: a row still pending is found no earlier than the sleep's timer. */
    method Poll(loop: EventLoop, h: nat, ghost x: Handler, id: string) returns (current: Option<Row>)
      requires loop.Synced() && loop.service == this && loop.Has(h, x)
      requires x.pc.Testing? && x.pc.id == id && loop.Now() < x.pc.deadline
      modifies loop, loop.store, loop.audit, loop.service, loop.gateway
      ensures loop.Synced() && Begins(old(loop.run), loop.run)
      ensures loop.Has(h, x.(pc := Polled(NapFrom(x.pc, old(loop.Now())), current)))
      ensures current.Some? && current.value.status.Pending? ==> old(loop.Now()) < loop.Now()
      ensures current.Some? ==> IsRowOf(store.rows, id, current.value)
    {
      ghost var nap := NapFrom(x.pc, loop.Now());
      loop.Sleep(h, x);
      current := Fetch(loop, h, x.(pc := Polling(nap)), id);
      NapElapsed(loop.cfg, loop.run, h);
    }

    /** The rest of `wait`: rounds until an answer, or until the deadline. */
    method WaitLoop(loop: EventLoop, h: nat, ghost x: Handler, id: string, deadline: Time)
      returns (settled: Option<Row>)
      requires loop.Synced() && loop.service == this && loop.Has(h, x)
      requires x.pc.WaitRead? && x.pc.id == id && x.pc.found.Some?
      requires x.pc.found.value.status.Pending? && x.pc.found.value.expiresAt == deadline
      modifies loop, loop.store, loop.audit, loop.service, loop.gateway
      ensures loop.Synced() && Begins(old(loop.run), loop.run)
      ensures loop.Has(h, x.(pc := Applying(settled, false)))
      ensures settled.Some? ==> IsRowOf(store.rows, id, settled.value)
    {
      var wake := JoinEvent(loop, h, x, id);
      ghost var pc := Testing(id, wake, deadline, 0);
      var answered := false;
      settled := None;
      while !answered && loop.Now() < deadline
        invariant loop.Synced() && Begins(old(loop.run), loop.run) && loop.Has(h, x.(pc := pc))
        invariant answered ==> pc == Applying(settled, false)
        invariant settled.Some? ==> IsRowOf(store.rows, id, settled.value)
        invariant !answered ==> pc.Testing? && pc.id == id && pc.deadline == deadline
        decreases !answered, deadline - loop.Now()
      {
        settled, answered := Round(loop, h, x.(pc := pc), id);
        pc := loop.world.handlers[h].pc;
      }
      if !answered {
        ghost var met;
        settled, met := SettleTimeout(loop, h, x.(pc := pc), id);
      }
    }

    /** `get`: what it comes back with was not overdue at the moment it looked. */
    method Get(loop: EventLoop, h: nat, ghost x: Handler, id: string)
      returns (request: Option<Row>, ghost checked: Time)
      requires loop.Synced() && loop.service == this && loop.Has(h, x) && x.pc == ResumeReading(id)
      modifies loop, loop.store, loop.audit, loop.service, loop.gateway
      ensures loop.Synced() && Begins(old(loop.run), loop.run)
      ensures loop.Has(h, x.(pc := Resuming(id, request)))
      ensures old(loop.Now()) <= checked <= loop.Now()
      ensures request.Some? ==> !request.value.IsExpiredAt(checked) && IsRowOf(store.rows, id, request.value)
      ensures id in old(store.rows) ==> request.Some?
    {
      request := Check(loop, h, x, id);
      checked := loop.Now();
      if request.Some? && request.value.IsExpiredAt(loop.Now()) {
        request := Reread(loop, h, x.(pc := ResumeSweeping(id, loop.Now())), id, loop.Now());
      }
    }

    /** `get`, up to its test of the deadline. */
    method Check(loop: EventLoop, h: nat, ghost x: Handler, id: string) returns (request: Option<Row>)
      requires loop.Synced() && loop.service == this && loop.Has(h, x) && x.pc == ResumeReading(id)
      modifies loop, loop.store, loop.audit, loop.service, loop.gateway
      ensures loop.Synced() && Begins(old(loop.run), loop.run) && old(loop.Now()) <= loop.Now()
      ensures loop.Has(h, x.(pc := Checked(id, request, loop.Now())))
      ensures request.Some? ==> IsRowOf(store.rows, id, request.value)
      ensures id in old(store.rows) ==> request.Some?
    {
      request := Fetch(loop, h, x, id);
      CheckMove(loop.cfg, loop.world, h, NOTHING);
      loop.Step(Run(h, NOTHING));
    }

    /** `get` on an overdue row: sweep, and read what the sweep (or whoever came before it) left. */
    method Reread(loop: EventLoop, h: nat, ghost x: Handler, id: string, moment: Time) returns (request: Option<Row>)
      requires loop.Synced() && loop.service == this && loop.Has(h, x) && x.pc == ResumeSweeping(id, moment)
      modifies loop, loop.store, loop.audit, loop.service, loop.gateway
      ensures loop.Synced() && Begins(old(loop.run), loop.run)
      ensures loop.Has(h, x.(pc := Resuming(id, request))) && old(loop.Now()) <= loop.Now()
      ensures request.Some? && request.value.status.IsResolved() && IsRowOf(store.rows, id, request.value)
    {
      var _ := Sweep(loop, h, x, moment);
      request := Fetch(loop, h, x.(pc := ResumeRereading(id)), id);
    }

    /** `dismiss`: settle a request its client has abandoned, unless it is settled, and wake who waits on it. */
    method Dismiss(loop: EventLoop, h: nat, ghost x: Handler, id: string, seen: Row, at: Time)
      returns (dismissed: Option<Row>, ghost met: Table)
      requires loop.Synced() && loop.service == this && loop.Has(h, x) && x.pc == Dismissing(id, seen, at)
      modifies loop, loop.store, loop.audit, loop.service, loop.gateway
      ensures loop.Synced() && Begins(old(loop.run), loop.run)
      ensures loop.Has(h, x.(pc := Applying(Some(if dismissed.Some? then dismissed.value else seen), true)))
      ensures Met(old(loop.run), loop.run, met)
      ensures dismissed == Find(Resolved(met, id, false, CLIENT_APPROVER, ABANDONED, at), id)
      ensures dismissed.Some? ==> dismissed.value.status.IsResolved() && IsRowOf(store.rows, id, dismissed.value)
      ensures id !in events && |loop.run.states| >= 2
      ensures var before := loop.run.states[|loop.run.states| - 2].events;
              id in before ==> before[id] in fired
    {
      dismissed, met := Settle(loop, h, x, id, false, CLIENT_APPROVER, ABANDONED, at);
      ghost var mid := loop.run;
      WakeAll(loop, h, x.(pc := Dismissed(id, seen, dismissed)), id);
      MetEarlier(old(loop.run), mid, loop.run, met);
    }

    /** The event of a dismissed request is dropped and set. */
    method WakeAll(loop: EventLoop, h: nat, ghost x: Handler, id: string)
      requires loop.Synced() && loop.service == this && loop.Has(h, x) && x.pc.Dismissed? && x.pc.id == id
      modifies loop, this
      ensures loop.Synced() && Begins(old(loop.run), loop.run)
      ensures loop.Has(h, x.(pc := Applying(Some(if x.pc.found.Some? then x.pc.found.value else x.pc.seen), true)))
      ensures |loop.run.states| == |old(loop.run.states)| + 1
      ensures id !in events && (id in old(events) ==> old(events)[id] in fired)
    {
      if id in events { events, fired := events - {id}, fired + {events[id]}; }
      DismissedMove(loop.cfg, loop.world, h, NOTHING);
      loop.Step(Run(h, NOTHING));
    }

    /** The awaited decision of an approver, for an id that is stored or was never given out. */
    method Answer(loop: EventLoop, id: string, approved: bool, approver: string, note: Option<string>)
      returns (resolved: Option<Row>, ghost met: Table)
      requires loop.Synced() && loop.service == this
      requires id in loop.store.rows || id !in loop.world.issued
      modifies loop, loop.store, loop.audit, loop.service, loop.gateway
      ensures loop.Synced() && Begins(old(loop.run), loop.run) && id in loop.world.notices
      ensures Met(old(loop.run), loop.run, met) && Evolves(old(store.rows), met)
      ensures resolved == Find(Resolved(met, id, approved, approver, note, old(loop.Now())), id) == Find(store.rows, id)
      ensures resolved.Some? ==> resolved.value.status.IsResolved()
    {
      var at := loop.Now();
      loop.Yield(Decider(id));
      Since(loop.cfg, old(loop.run), loop.run);
      met := store.rows;
      ghost var mid := loop.run;
      resolved := AnswerNow(loop, id, approved, approver, note, at);
      MetHere(old(loop.run), mid, loop.run);
    }

    /** The decision itself, one transaction. */
    method AnswerNow(loop: EventLoop, id: string, approved: bool, approver: string, note: Option<string>, at: Time)
      returns (resolved: Option<Row>)
      requires loop.Synced() && loop.service == this && at <= loop.Now()
      requires id in loop.store.rows || id !in loop.world.issued
      modifies loop, store
      ensures loop.Synced() && Begins(old(loop.run), loop.run) && id in loop.world.notices
      ensures store.rows == Resolved(old(store.rows), id, approved, approver, note, at)
      ensures resolved == Find(store.rows, id) && (resolved.Some? ==> resolved.value.status.IsResolved())
    {
      resolved := store.Resolve(id, approved, approver, note, at);
      loop.Step(HumanDecides(id, approved, approver, note, at));
    }

    /** The rest of `decide`: resume, and set the event if there is one. */
    method Wake(loop: EventLoop, id: string)
      requires loop.Synced() && loop.service == this && id in loop.world.notices
      modifies loop, loop.store, loop.audit, loop.service, loop.gateway
      ensures loop.Synced() && Begins(old(loop.run), loop.run)
      ensures StoredResolved(old(loop.world), id) ==> id in store.rows && store.rows[id] == old(store.rows)[id]
      ensures id in events ==> events[id] in fired
    {
      loop.Yield(Decider(id));
      if id in events { fired := fired + {events[id]}; }
      loop.Step(Notify(id));
      Since(loop.cfg, old(loop.run), loop.run);
    }

    /**
     * `decide`: the decision is taken of the table it met, where it stands if the row was pending; if not, the
     * earlier one is handed back. Then waiters are woken.
     */
    method Decide(loop: EventLoop, id: string, approved: bool, approver: string, note: Option<string>)
      returns (resolved: Option<Row>, ghost met: Table)
      requires loop.Synced() && loop.service == this
      requires id in loop.store.rows || id !in loop.world.issued
      modifies loop, loop.store, loop.audit, loop.service, loop.gateway
      ensures loop.Synced() && Begins(old(loop.run), loop.run)
      ensures Met(old(loop.run), loop.run, met) && Evolves(old(store.rows), met)
      ensures resolved == Find(Resolved(met, id, approved, approver, note, old(loop.Now())), id)
      ensures resolved.Some? ==> resolved.value.status.IsResolved() && Find(store.rows, id) == resolved
      ensures id in events ==> events[id] in fired
    {
      resolved, met := Answer(loop, id, approved, approver, note);
      ghost var mid := loop.run;
      Wake(loop, id);
      MetEarlier(old(loop.run), mid, loop.run, met);
    }

    /** `pending`: sweep, then list. */
    method Pending(loop: EventLoop) returns (rows: seq<Row>)
      requires loop.Synced() && loop.service == this
      modifies loop, loop.store, loop.audit, loop.service, loop.gateway
      ensures loop.Synced() && Begins(old(loop.run), loop.run)
      ensures forall row :: row in rows <==> row in store.rows.Values && row.status.Pending?
      ensures forall i, j | 0 <= i < j < |rows| :: rows[i] != rows[j] && rows[i].createdAt <= rows[j].createdAt
      ensures NoneLeft(old(store.rows), store.rows, old(loop.Now()))
    {
      var moment := loop.Now();
      loop.Yield(Page);
      Since(loop.cfg, old(loop.run), loop.run);
      ghost var met := store.rows;
      var _ := store.ExpireOverdue(moment);
      loop.Step(SweepPage(moment));
      ghost var after := loop.run;
      loop.Yield(Page);
      Since(loop.cfg, after, loop.run);
      SweptForGood(met, moment, store.rows);
      NoneLeftSince(old(store.rows), met, store.rows, moment);
      rows := store.ListPending();
    }
  }

  class Gateway {
    const policy: Policy
    const connections: set<string>
    const approvals: ApprovalService
    const audit: SqliteAuditStore
    const auditing: bool          // off: the null store, which drops every event
    const initial: ToolRegistry
    const mode: ApprovalMode
    const redact: seq<string>
    var refreshed: Option<ToolRegistry>

    constructor (policy: Policy, connections: set<string>, approvals: ApprovalService, audit: SqliteAuditStore,
                 auditing: bool, registry: ToolRegistry, mode: ApprovalMode, redact: seq<string>)
      ensures this.policy == policy && this.connections == connections && this.approvals == approvals
      ensures this.audit == audit && this.auditing == auditing && this.mode == mode && this.redact == redact
      ensures Current() == registry
    {
      this.policy, this.connections, this.approvals, this.audit := policy, connections, approvals, audit;
      this.auditing, this.initial, this.mode, this.redact := auditing, registry, mode, redact;
      this.refreshed := None;
    }

    function Current(): ToolRegistry reads this { if refreshed.Some? then refreshed.value else initial }

    /** `_record`: build the event and hand it to the audit store, live or null. */
    method Record(loop: EventLoop, h: nat, ghost x: Handler, tool: string, upstream: string, arguments: Arguments,
                  decision: Decision, outcome: Outcome, clientName: Option<string>, status: Option<ResultStatus>,
                  approval: Option<Row>, ghost reply: Reply) returns (ghost id: string)
      requires loop.Synced() && loop.gateway == this && loop.Has(h, x)
      requires x.pc == Recording(BuildEvent(tool, upstream, arguments, decision, outcome, redact, clientName, status,
                                            approval), reply)
      modifies loop, loop.store, loop.audit, loop.service, loop.gateway
      ensures loop.Synced() && Begins(old(loop.run), loop.run)
      ensures loop.Has(h, x.(wrote := if auditing then x.wrote + [id] else x.wrote, pc := Done(reply)))
      ensures id !in old(audit.trail)
      ensures auditing ==>
                id in audit.trail
                && var stored := audit.trail[id];
                   && stored.tool == tool && stored.upstream == upstream && stored.clientName == clientName
                   && stored.arguments == RedactArguments(arguments, redact)
                   && stored.action == decision.action && stored.decisionSource == decision.source
                   && stored.decisionReason == decision.reason && stored.ruleIndex == decision.ruleIndex
                   && stored.outcome == outcome && stored.resultStatus == status
                   && (approval.Some? ==> stored.approvalId == Some(approval.value.id)
                                          && stored.approver == approval.value.approver)
                   && (approval.None? ==> stored.approvalId == None && stored.approver == None)
      ensures loop.Answers(h, x, reply) && loop.SentBy(h) == x.sent
    {
      var event := BuildEvent(tool, upstream, arguments, decision, outcome, redact, clientName, status, approval);
      loop.Yield(Caller(h));
      Since(loop.cfg, old(loop.run), loop.run);
      id := Write(loop, h, x, event, reply);
    }

    /** The event is written under an id nobody has used. */
    method Write(loop: EventLoop, h: nat, ghost x: Handler, event: AuditEvent, ghost reply: Reply)
      returns (ghost id: string)
      requires loop.Synced() && loop.gateway == this && loop.Has(h, x) && x.pc == Recording(event, reply)
      modifies loop, loop.audit
      ensures loop.Synced() && Begins(old(loop.run), loop.run)
      ensures loop.Has(h, x.(wrote := if auditing then x.wrote + [id] else x.wrote, pc := Done(reply)))
      ensures id !in old(audit.trail) && (auditing ==> id in audit.trail && audit.trail[id] == event)
      ensures loop.Answers(h, x, reply)
    {
      var newId := NewId(audit.trail.Keys);
      id := newId;
      if auditing { audit.Record(newId, event); }
      RecordMove(loop.cfg, loop.world, h, Choice(newId, None));
      loop.Step(Run(h, Choice(newId, None)));
      AnswerIsOnRecord(loop.cfg, loop.run, h);
    }

    /** `_unknown_tool` */
    method UnknownTool(loop: EventLoop, h: nat, ghost x: Handler, name: string, arguments: Arguments,
                       clientName: Option<string>) returns (reply: Reply)
      requires loop.Synced() && loop.gateway == this && loop.Has(h, x) && x == NewHandler(x.call)
      requires name == x.call.tool && arguments == x.call.arguments && clientName == x.call.clientName
      requires name !in Current()
      modifies loop, loop.store, loop.audit, loop.service, loop.gateway
      ensures loop.Synced() && Begins(old(loop.run), loop.run)
      ensures loop.Answers(h, x, reply) && reply.NoSuchTool? && loop.SentBy(h) == []
    {
      var split := SplitNamespace(name);
      var upstream := if split.Some? then split.value.0 else "unknown";
      var decision := Decision(Action.Deny, ByDefault, Some("tool is not registered"), None);
      UnknownMove(loop.cfg, loop.world, h, NOTHING);
      loop.Step(Run(h, NOTHING));
      reply := NoSuchTool;
      var _ := Record(loop, h, loop.world.handlers[h], name, upstream, arguments, decision, Outcome.UnknownTool,
                      clientName, Some(ResultError), None, reply);
    }

    /** `_deny` */
    method Deny(loop: EventLoop, h: nat, ghost x: Handler, entry: NamespacedTool, request: PolicyRequest,
                decision: Decision, clientName: Option<string>) returns (reply: Reply)
      requires loop.Synced() && loop.gateway == this && loop.Has(h, x)
      requires Concerns(x, entry, request, decision, clientName)
      requires x.pc == Recording(EventOf(loop.cfg, x, decision, DeniedByPolicy, Some(ResultError), None),
                                 Refused(DeniedByPolicy, None))
      modifies loop, loop.store, loop.audit, loop.service, loop.gateway
      ensures loop.Synced() && Begins(old(loop.run), loop.run)
      ensures loop.Answers(h, x, reply) && reply == Refused(DeniedByPolicy, None)
      ensures loop.SentBy(h) == x.sent
    {
      reply := Refused(DeniedByPolicy, None);
      var _ := Record(loop, h, x, request.tool, entry.upstream, request.arguments, decision, DeniedByPolicy, clientName,
             Some(ResultError), None, reply);
    }

    /** The upstream call a forward makes, if the upstream is connected. */
    function Outgoing(entry: NamespacedTool, request: PolicyRequest, approval: Option<Row>): seq<Sent> {
      if entry.upstream in connections
      then [Sent(entry.upstream, entry.remoteName, request.arguments, approval)] else []
    }

    /** `_forward` */
    method Forward(loop: EventLoop, h: nat, ghost x: Handler, entry: NamespacedTool, request: PolicyRequest,
                   decision: Decision, approval: Option<Row>, clientName: Option<string>) returns (reply: Reply)
      requires loop.Synced() && loop.gateway == this && loop.Has(h, x)
      requires Concerns(x, entry, request, decision, clientName) && x.pc == Forwarding(approval)
      modifies loop, loop.store, loop.audit, loop.service, loop.gateway
      ensures loop.Synced() && Begins(old(loop.run), loop.run)
      ensures loop.Answers(h, x, reply)
      ensures reply.Unavailable? || (reply.Returned? && entry.upstream in connections)
      ensures loop.SentBy(h) == x.sent + Outgoing(entry, request, approval)
    {
      if entry.upstream !in connections {
        reply := Fail(loop, h, x, entry, request, decision, clientName);
      } else {
        var response := CallUpstream(loop, h, x, entry, approval);
        reply := Conclude(loop, h, Sending(x, entry, approval), entry, request, decision, approval, clientName,
                          response);
      }
    }

    /** There is no connection to the upstream: record that, and tell the client. */
    method Fail(loop: EventLoop, h: nat, ghost x: Handler, entry: NamespacedTool, request: PolicyRequest,
                decision: Decision, clientName: Option<string>) returns (reply: Reply)
      requires loop.Synced() && loop.gateway == this && loop.Has(h, x)
      requires Concerns(x, entry, request, decision, clientName) && x.pc.Forwarding?
      requires entry.upstream !in connections
      modifies loop, loop.store, loop.audit, loop.service, loop.gateway
      ensures loop.Synced() && Begins(old(loop.run), loop.run)
      ensures loop.Answers(h, x, reply) && loop.SentBy(h) == x.sent && reply == Unavailable
    {
      var failed := Decision(Action.Deny, decision.source, Some("upstream unavailable"), None);
      ForwardMove(loop.cfg, loop.world, h, NOTHING);
      loop.Step(Run(h, NOTHING));
      reply := Unavailable;
      var _ := Record(loop, h, x.(pc := Unconnected(loop.cfg, x)), request.tool, entry.upstream, request.arguments,
                      failed, Error, clientName, Some(ResultError), None, reply);
    }

    /** The upstream call has ended: record it as forwarded, or as an error if it raised. */
    method Conclude(loop: EventLoop, h: nat, ghost x: Handler, entry: NamespacedTool, request: PolicyRequest,
                    decision: Decision, approval: Option<Row>, clientName: Option<string>, response: Option<bool>)
      returns (reply: Reply)
      requires loop.Synced() && loop.gateway == this && loop.Has(h, Received(loop.cfg, x, approval, response))
      requires Concerns(x, entry, request, decision, clientName)
      modifies loop, loop.store, loop.audit, loop.service, loop.gateway
      ensures loop.Synced() && Begins(old(loop.run), loop.run)
      ensures loop.Answers(h, x, reply) && loop.SentBy(h) == x.sent
      ensures reply == if response.Some? then Returned(response.value) else Unavailable
    {
      ghost var y := Received(loop.cfg, x, approval, response);
      if response.None? {
        reply := Unavailable;
        var _ := Record(loop, h, y, request.tool, entry.upstream, request.arguments, decision, Error, clientName,
                        Some(ResultError), approval, reply);
      } else {
        reply := Returned(response.value);
        var _ := Record(loop, h, y, request.tool, entry.upstream, request.arguments, decision, Forwarded, clientName,
                        Some(if response.value then ResultError else ResultOk), approval, reply);
      }
    }

    /** The upstream call: its result, erroneous or not, or None if it raised. */
    method CallUpstream(loop: EventLoop, h: nat, ghost x: Handler, entry: NamespacedTool, approval: Option<Row>)
      returns (response: Option<bool>)
      requires loop.Synced() && loop.gateway == this && loop.Has(h, x)
      requires x.pc == Forwarding(approval) && x.entry == Some(entry) && entry.upstream in connections
      modifies loop, loop.store, loop.audit, loop.service, loop.gateway
      ensures loop.Synced() && Begins(old(loop.run), loop.run)
      ensures loop.Has(h, Received(loop.cfg, Sending(x, entry, approval), approval, response))
    {
      ForwardMove(loop.cfg, loop.world, h, NOTHING);
      loop.Step(Run(h, NOTHING));
      loop.Yield(Caller(h));
      response := *;
      ReceiveMove(loop.cfg, loop.world, h, Choice("", response));
      loop.Step(Run(h, Choice("", response)));
    }

    /** What was done on this row: forwarded if it is approved, refused under the right outcome if not. */
    ghost predicate ActedOn(loop: EventLoop, h: nat, x: Handler, entry: NamespacedTool, request: PolicyRequest,
                            row: Row, dismissal: bool, reply: Reply) reads loop
    {
      if row.status.Approved? then
        && (reply.Unavailable? || reply.Returned?)
        && loop.SentBy(h) == x.sent + Outgoing(entry, request, Some(row))
      else reply == Refused(FiledUnder(row, dismissal), Some(row)) && loop.SentBy(h) == x.sent
    }

    /** `_apply_approval`; the outcome is given when the client's own retry settled the request. */
    method ApplyApproval(loop: EventLoop, h: nat, ghost x: Handler, entry: NamespacedTool, request: PolicyRequest,
                         decision: Decision, approval: Option<Row>, clientName: Option<string>,
                         outcome: Option<Outcome>) returns (reply: Reply)
      requires loop.Synced() && loop.gateway == this && loop.Has(h, x)
      requires Concerns(x, entry, request, decision, clientName) && x.pc == Applying(approval, outcome.Some?)
      requires outcome.Some? ==> outcome.value == DismissedByClient
      modifies loop, loop.store, loop.audit, loop.service, loop.gateway
      ensures loop.Synced() && Begins(old(loop.run), loop.run)
      ensures loop.Answers(h, x, reply)
      ensures approval.None? ==> reply.Vanished? && loop.SentBy(h) == x.sent
      ensures approval.Some? ==> ActedOn(loop, h, x, entry, request, approval.value, outcome.Some?, reply)
    {
      ApplyMove(loop.cfg, loop.world, h, NOTHING);
      loop.Step(Run(h, NOTHING));
      ghost var y := loop.world.handlers[h];
      if approval.None? {
        reply := Vanished;
      } else if approval.value.status.IsGranted() {
        reply := Forward(loop, h, y, entry, request, decision, approval, clientName);
      } else {
        var filed := if outcome.Some? then outcome.value
                     else if approval.value.status == Expired then TimedOut else DeniedByApprover;
        reply := Refused(filed, approval);
        var _ := Record(loop, h, y, request.tool, entry.upstream, request.arguments, decision, filed, clientName,
               Some(ResultError), approval, reply);
      }
    }

    /**
     * `_resume`: a stored request is acted on once it is settled, by the client's own retry if need be. What is
     * then refused is filed as a dismissal exactly if this call has read its request as pending.
     */
    method Resume(loop: EventLoop, h: nat, ghost x: Handler, entry: NamespacedTool, request: PolicyRequest,
                  decision: Decision, id: string, clientName: Option<string>) returns (reply: Reply)
      requires loop.Synced() && loop.gateway == this && loop.Has(h, x)
      requires Concerns(x, entry, request, decision, clientName) && x.pc == ResumeReading(id)
      modifies loop, loop.store, loop.audit, loop.service, loop.gateway
      ensures loop.Synced() && Begins(old(loop.run), loop.run)
      ensures loop.Answers(h, x, reply)
      ensures reply.NotOnFile? ==> id !in old(loop.store.rows) && loop.SentBy(h) == x.sent
      ensures !reply.NotOnFile? ==>
                && StoredResolved(loop.world, id)
                && ActedOn(loop, h, x, entry, request, loop.world.rows[id], loop.HasReadPending(h), reply)
    {
      var settled := LookUp(loop, h, x, id);
      ghost var dismissal;
      reply, dismissal := GoOn(loop, h, loop.world.handlers[h], entry, request, decision, id, settled, clientName);
      FiledAsRead(loop.cfg, loop.run, h);
    }

    /** With the approval looked up: answer that there is none, dismiss it, or act on it. */
    method GoOn(loop: EventLoop, h: nat, ghost x: Handler, entry: NamespacedTool, request: PolicyRequest,
                decision: Decision, id: string, settled: Option<Row>, clientName: Option<string>)
      returns (reply: Reply, ghost dismissal: bool)
      requires loop.Synced() && loop.gateway == this && loop.Has(h, x)
      requires Concerns(x, entry, request, decision, clientName) && x.pc == Found(id, settled, loop.Now())
      requires settled.Some? ==> IsRowOf(loop.store.rows, id, settled.value)
      modifies loop, loop.store, loop.audit, loop.service, loop.gateway
      ensures loop.Synced() && Begins(old(loop.run), loop.run)
      ensures loop.Answers(h, x, reply)
      ensures reply.NotOnFile? ==> settled.None? && loop.SentBy(h) == x.sent
      ensures !reply.NotOnFile? ==>
                && StoredResolved(loop.world, id)
                && ActedOn(loop, h, x, entry, request, loop.world.rows[id], dismissal, reply)
    {
      dismissal := false;
      if settled.None? {
        reply := NotOnFile;
      } else if !settled.value.status.IsResolved() {
        dismissal := true;
        reply := Abandon(loop, h, x, entry, request, decision, id, settled.value, loop.Now(), clientName);
      } else {
        reply := ActOn(loop, h, x, entry, request, decision, id, settled.value, clientName, None);
      }
    }

    /** `_apply_approval` on a row that is stored and settled, and so stays as it is. */
    method ActOn(loop: EventLoop, h: nat, ghost x: Handler, entry: NamespacedTool, request: PolicyRequest,
                 decision: Decision, id: string, settled: Row, clientName: Option<string>, outcome: Option<Outcome>)
      returns (reply: Reply)
      requires loop.Synced() && loop.gateway == this && loop.Has(h, x)
      requires Concerns(x, entry, request, decision, clientName) && x.pc == Applying(Some(settled), outcome.Some?)
      requires StoredResolved(loop.world, id) && loop.world.rows[id] == settled
      requires outcome in {None, Some(DismissedByClient)}
      modifies loop, loop.store, loop.audit, loop.service, loop.gateway
      ensures loop.Synced() && Begins(old(loop.run), loop.run)
      ensures loop.Answers(h, x, reply)
      ensures StoredResolved(loop.world, id) && loop.world.rows[id] == settled
      ensures ActedOn(loop, h, x, entry, request, settled, outcome.Some?, reply)
    {
      reply := ApplyApproval(loop, h, x, entry, request, decision, Some(settled), clientName, outcome);
      Since(loop.cfg, old(loop.run), loop.run);
    }

    /** The approval a retry names, and the handler set to go on with it. */
    method LookUp(loop: EventLoop, h: nat, ghost x: Handler, id: string) returns (settled: Option<Row>)
      requires loop.Synced() && loop.gateway == this && loop.Has(h, x) && x.pc == ResumeReading(id)
      modifies loop, loop.store, loop.audit, loop.service, loop.gateway
      ensures loop.Synced() && Begins(old(loop.run), loop.run)
      ensures loop.Has(h, x.(pc := Found(id, settled, loop.Now())))
      ensures id in old(loop.store.rows) ==> settled.Some?
      ensures settled.Some? ==> IsRowOf(loop.store.rows, id, settled.value)
    {
      ghost var checked;
      settled, checked := approvals.Get(loop, h, x, id);
      FindMove(loop.cfg, loop.world, h, NOTHING);
      loop.Step(Run(h, NOTHING));
    }

    /** A retry that came before any decision settles its request itself, and is filed apart from denials. */
    method Abandon(loop: EventLoop, h: nat, ghost x: Handler, entry: NamespacedTool, request: PolicyRequest,
                   decision: Decision, id: string, settled: Row, at: Time, clientName: Option<string>)
      returns (reply: Reply)
      requires loop.Synced() && loop.gateway == this && loop.Has(h, x)
      requires Concerns(x, entry, request, decision, clientName) && x.pc == Dismissing(id, settled, at)
      requires settled.id == id
      modifies loop, loop.store, loop.audit, loop.service, loop.gateway
      ensures loop.Synced() && Begins(old(loop.run), loop.run)
      ensures loop.Answers(h, x, reply)
      ensures StoredResolved(loop.world, id)
      ensures ActedOn(loop, h, x, entry, request, loop.world.rows[id], true, reply)
    {
      var dismissed, _ := approvals.Dismiss(loop, h, x, id, settled, at);
      var approval := if dismissed.Some? then dismissed.value else settled;
      SettledRow(loop.cfg, loop.run, h);
      reply := ActOn(loop, h, x.(pc := Applying(Some(approval), true)), entry, request, decision, id, approval,
                     clientName, Some(DismissedByClient));
    }

    /** `_require_approval`: a new request is stored, and the client gets its link or the answer to it. */
    method RequireApproval(loop: EventLoop, h: nat, ghost x: Handler, entry: NamespacedTool, request: PolicyRequest,
                           decision: Decision, clientName: Option<string>, supportsUrl: bool)
      returns (reply: Reply, ghost id: string)
      requires loop.Synced() && loop.gateway == this && loop.Has(h, x)
      requires x == NewHandler(x.call) && NeedsApproval(loop.cfg, loop.world, x.call)
      requires entry == Current()[x.call.tool] && supportsUrl == x.call.supportsUrl
      requires Concerns(Admitted(loop.cfg, x, entry), entry, request, decision, clientName)
      requires loop.Now() + loop.cfg.timeout < DAYS * DAY
      modifies loop, loop.store, loop.audit, loop.service, loop.gateway
      ensures loop.Synced() && Begins(old(loop.run), loop.run)
      ensures loop.Answers(h, Admitted(loop.cfg, x, entry), reply)
      ensures id !in old(loop.store.rows) && id in loop.store.rows
      ensures reply.InputRequired? <==> mode == Elicit || (mode == Auto && supportsUrl)
      ensures reply.InputRequired? ==>
                && reply.request.id == id && SameRequest(reply.request, loop.store.rows[id])
                && loop.SentBy(h) == []
      ensures !reply.InputRequired? ==>
                StoredResolved(loop.world, id) && ActedOn(loop, h, x, entry, request, loop.world.rows[id], false, reply)
    {
      var approval := approvals.Open(loop, h, x, request.tool, entry.upstream, request.arguments, decision.reason,
                                     clientName);
      id := approval.id;
      ghost var y := loop.world.handlers[h];
      if UseElicitation(mode, supportsUrl) {
        reply := HandOut(loop, h, y, entry, request, decision, approval, clientName);
      } else {
        reply := Hold(loop, h, y, entry, request, decision, approval.id, clientName);
      }
    }

    /** Record that the call awaits its approval, and hand the client the link. */
    method HandOut(loop: EventLoop, h: nat, ghost x: Handler, entry: NamespacedTool, request: PolicyRequest,
                   decision: Decision, approval: Row, clientName: Option<string>) returns (reply: Reply)
      requires loop.Synced() && loop.gateway == this && loop.Has(h, x)
      requires Concerns(x, entry, request, decision, clientName)
      requires x.pc == Recording(EventOf(loop.cfg, x, decision, AwaitingApproval, None, Some(approval)),
                                 InputRequired(approval))
      requires approval.id in loop.store.rows && SameRequest(approval, loop.store.rows[approval.id])
      modifies loop, loop.store, loop.audit, loop.service, loop.gateway
      ensures loop.Synced() && Begins(old(loop.run), loop.run)
      ensures loop.Answers(h, x, reply) && reply == InputRequired(approval) && loop.SentBy(h) == x.sent
      ensures approval.id in loop.store.rows && SameRequest(approval, loop.store.rows[approval.id])
    {
      reply := InputRequired(approval);
      var _ := Record(loop, h, x, request.tool, entry.upstream, request.arguments, decision, AwaitingApproval,
                      clientName, None, Some(approval), reply);
      Since(loop.cfg, old(loop.run), loop.run);
    }

    /** Hold the call open until its approval is settled, and act on that. */
    method Hold(loop: EventLoop, h: nat, ghost x: Handler, entry: NamespacedTool, request: PolicyRequest,
                decision: Decision, id: string, clientName: Option<string>) returns (reply: Reply)
      requires loop.Synced() && loop.gateway == this && loop.Has(h, x)
      requires Concerns(x, entry, request, decision, clientName) && x.pc == WaitReading(id)
      modifies loop, loop.store, loop.audit, loop.service, loop.gateway
      ensures loop.Synced() && Begins(old(loop.run), loop.run)
      ensures loop.Answers(h, x, reply)
      ensures StoredResolved(loop.world, id)
      ensures ActedOn(loop, h, x, entry, request, loop.world.rows[id], false, reply)
    {
      var settled := approvals.Wait(loop, h, x, id);
      reply := ActOn(loop, h, x.(pc := Applying(settled, false)), entry, request, decision, id, settled.value,
                     clientName, None);
    }

    /** `call_tool`: from its arrival to its reply. */
    method CallTool(loop: EventLoop, h: nat, name: string, arguments: Option<Arguments>, clientName: Option<string>,
                    supportsUrl: bool, requestState: Option<string>, inputResponses: bool) returns (reply: Reply)
      requires loop.Synced() && loop.gateway == this && h !in loop.world.handlers
      requires var call := CallOf(name, arguments, clientName, supportsUrl, requestState, inputResponses);
               NeedsApproval(loop.cfg, loop.world, call) ==> loop.Now() + loop.cfg.timeout < DAYS * DAY
      modifies loop, loop.store, loop.audit, loop.service, loop.gateway
      ensures loop.Synced() && Begins(old(loop.run), loop.run)
      ensures h in loop.world.handlers && loop.world.handlers[h].pc == Done(reply)
      ensures var call := loop.world.handlers[h].call;
              && call.tool == name && call.clientName == clientName && call.supportsUrl == supportsUrl
              && call.arguments == (if arguments.Some? then arguments.value else map[])
      ensures Served(loop.cfg, policy, old(Current()), old(loop.store.rows), loop.world, h, name,
                     if arguments.Some? then arguments.value else map[], supportsUrl,
                     if inputResponses then requestState else None, loop.SentBy(h), reply)
      ensures forall sent <- loop.SentBy(h) ::
                && name in old(Current()) && sent.upstream == old(Current())[name].upstream
                && sent.tool == old(Current())[name].remoteName
                && (arguments.Some? ==> sent.arguments == arguments.value)
                && (arguments.None? ==> sent.arguments == map[])
      ensures OneEvent(loop.cfg, old(loop.world), loop.world, h)
    {
      var call := CallOf(name, arguments, clientName, supportsUrl, requestState, inputResponses);
      loop.Step(Arrive(h, call));
      reply := Serve(loop, h, call);
      CallIsAudited(loop.cfg, old(loop.run), loop.run, h);
      CallIsServed(loop.cfg, policy, old(Current()), old(loop.store.rows), loop.run, h,
                   if inputResponses then requestState else None);
    }

    /** The call has arrived: look its tool up, ask the policy, and branch. */
    method Serve(loop: EventLoop, h: nat, call: Call) returns (reply: Reply)
      requires loop.Synced() && loop.gateway == this && loop.Has(h, NewHandler(call))
      requires NeedsApproval(loop.cfg, loop.world, call) ==> loop.Now() + loop.cfg.timeout < DAYS * DAY
      modifies loop, loop.store, loop.audit, loop.service, loop.gateway
      ensures loop.Synced() && Begins(old(loop.run), loop.run)
      ensures loop.Answers(h, if call.tool in old(Current())
                              then Admitted(loop.cfg, NewHandler(call), old(Current())[call.tool])
                              else NewHandler(call), reply)
      ensures reply.NotOnFile? ==> call.retry.Some? && call.retry.value !in old(loop.store.rows)
    {
      ghost var x := NewHandler(call);
      if call.tool !in Current() {
        reply := UnknownTool(loop, h, x, call.tool, call.arguments, call.clientName);
      } else {
        var entry := Current()[call.tool];
        var request := PolicyRequest(call.tool, entry.upstream, call.arguments, entry.Annotations());
        var decision := Evaluate(request, policy);
        if call.retry.None? && decision.action == Action.RequireApproval {
          ghost var id;
          reply, id := RequireApproval(loop, h, x, entry, request, decision, call.clientName, call.supportsUrl);
        } else {
          reply := GoAhead(loop, h, x, entry, request, decision, call.retry, call.clientName);
        }
      }
    }

    /** The branches of `call_tool` that open no approval: resume, forward or deny. */
    method GoAhead(loop: EventLoop, h: nat, ghost x: Handler, entry: NamespacedTool, request: PolicyRequest,
                   decision: Decision, retry: Option<string>, clientName: Option<string>) returns (reply: Reply)
      requires loop.Synced() && loop.gateway == this && loop.Has(h, x) && x == NewHandler(x.call)
      requires retry == x.call.retry && x.call.tool in Current() && entry == Current()[x.call.tool]
      requires Concerns(Admitted(loop.cfg, x, entry), entry, request, decision, clientName)
      requires retry.None? ==> decision.action != Action.RequireApproval
      modifies loop, loop.store, loop.audit, loop.service, loop.gateway
      ensures loop.Synced() && Begins(old(loop.run), loop.run)
      ensures loop.Answers(h, Admitted(loop.cfg, x, entry), reply)
      ensures reply.NotOnFile? ==> retry.Some? && retry.value !in old(loop.store.rows)
    {
      DirectMove(loop.cfg, loop.world, h, NOTHING);
      loop.Step(Run(h, NOTHING));
      ghost var y := loop.world.handlers[h];
      if retry.Some? {
        reply := Resume(loop, h, y, entry, request, decision, retry.value, clientName);
      } else if decision.action == Action.Allow {
        reply := Forward(loop, h, y, entry, request, decision, None, clientName);
      } else {
        reply := Deny(loop, h, y, entry, request, decision, clientName);
      }
    }

    /** `refresh_registry`, given what every connected upstream advertises (nothing, if it fails to answer). */
    method RefreshRegistry(loop: EventLoop, listings: seq<Listing>) returns (registry: ToolRegistry)
      requires loop.Synced() && loop.gateway == this
      modifies loop, loop.store, loop.audit, loop.service, loop.gateway
      ensures loop.Synced() && Begins(old(loop.run), loop.run)
      ensures Current() == registry && HoldsLast(registry, listings, |listings|, 0)
    {
      loop.Yield(Page);
      registry := Build(listings);
      refreshed := Some(registry);
      loop.Step(Refresh(registry));
    }
  }

  /**
   * What a call by this name with these arguments comes to, given the registry and the rows it found. `state` is
   * the request state it brings along with input responses; an empty one is none. With one the call is acted on
   * as the row it names says, which is found if it was stored; with none, as the policy says of the call.
   */
  ghost predicate Served(cfg: Config, policy: Policy, registry: ToolRegistry, rows: Table, s: State, h: nat,
                         name: string, arguments: Arguments, supportsUrl: bool, state: Option<string>,
                         sent: seq<Sent>, reply: Reply)
  {
    if name !in registry then reply.NoSuchTool? && sent == []
    else
      var entry := registry[name];
      if state.Some? && state.value != "" then
        if reply.NotOnFile? then state.value !in rows && sent == []
        else StoredResolved(s, state.value)
             && DealtWith(cfg, sent, entry, arguments, s.rows[state.value], reply)
      else match Decide(PolicyRequest(name, entry.upstream, arguments, entry.Annotations()), policy).action
        case Allow => PassedOn(cfg, sent, entry, arguments, None, reply)
        case Deny => reply == Refused(DeniedByPolicy, None) && sent == []
        case RequireApproval =>
          if cfg.mode == Elicit || (cfg.mode == Auto && supportsUrl) then
            && reply.InputRequired? && sent == []
            && DrawnBy(s, h, reply.request.id) && reply.request.id in s.rows
            && SameRequest(reply.request, s.rows[reply.request.id])
          else
            exists id ::
              && DrawnBy(s, h, id) && StoredResolved(s, id)
              && DealtWith(cfg, sent, entry, arguments, s.rows[id], reply)
  }

  lemma CallIsServed(cfg: Config, policy: Policy, registry: ToolRegistry, rows: Table, t: Trace, h: nat,
                     state: Option<string>)
    requires IsRun(cfg, t) && h in Last(t).handlers && Last(t).handlers[h].pc.Done?
    requires forall request :: cfg.decide(request) == Decide(request, policy)
    requires var x := Last(t).handlers[h];
             && x.entry == (if x.call.tool in registry then Some(registry[x.call.tool]) else None)
             && x.call.retry == (if state == Some("") then None else state)
             && (x.pc.reply.NotOnFile? ==> x.call.retry.Some? && x.call.retry.value !in rows)
    ensures var x := Last(t).handlers[h];
            Served(cfg, policy, registry, rows, Last(t), h, x.call.tool, x.call.arguments, x.call.supportsUrl, state,
                   x.sent, x.pc.reply)
    ensures var x := Last(t).handlers[h];
            forall sent <- x.sent ::
              && x.call.tool in registry && sent.upstream == registry[x.call.tool].upstream
              && sent.tool == registry[x.call.tool].remoteName && sent.arguments == x.call.arguments
  {
    var x := Last(t).handlers[h];
    AnswerIsDetermined(cfg, t, |t.states| - 1, h);
    RunsKeepInv(cfg, t, |t.states| - 1);
    assert HandlerAt(cfg, Last(t), h);
    forall sent <- x.sent ensures sent.arguments == x.call.arguments && x.entry.Some? {
      assert SentOk(cfg, Last(t), h, x, sent);
    }
  }

  /** The call as it arrives; it is a retry if it names a request state and carries input responses. */
  function CallOf(name: string, arguments: Option<Arguments>, clientName: Option<string>, supportsUrl: bool,
                  requestState: Option<string>, inputResponses: bool): Call
  {
    Call(name, if arguments.Some? then arguments.value else map[], clientName, supportsUrl,
         if requestState.Some? && requestState.value != "" && inputResponses then requestState else None)
  }
}
