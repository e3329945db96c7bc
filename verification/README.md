# mcp-gatekeeper, modelled and proved

mcp-gatekeeper stands between an MCP client and its upstream servers. Every tool call is evaluated against a
first-match policy; a call may be forwarded, denied, or parked until a human decides; whatever happens is written
to an audit trail with secrets masked. This project models that behaviour in Dafny and proves what it is for.

* **The approval protocol** (`Protocol`, `ProtocolMoves`, `ProtocolSteps`, `ProtocolInvariant`, `ProtocolTheorems`,
  `ProtocolOutcomes`, `ProtocolDeadlines`, `ProtocolStorage`, `ProtocolProgress`). Any number of handlers of
  `call_tool`, each with its own program counter, interleave at every await with approvers, sweeps by pages, registry
  refreshes and a monotone clock. Every database call is one atomic move. History variables keep the upstream calls
  made and the authors of audit events. One inductive invariant (`ProtocolInvariant.Inv`) is kept by every move, and
  the theorems are about all runs.
* **The same protocol as running objects** (`Runtime`, `ApprovalStore`, `AuditStore`). The approval store, the audit
  store, the approval service and the gateway are classes that update their fields, with the source's loops and
  branches. `EventLoop` keeps the run made so far: every method carries out moves of the protocol and
  `EventLoop.Synced` says that the fields hold what the protocol says. An await is `EventLoop.Yield`, which lets any
  number of moves of others happen. So a call of `Gateway.CallTool` extends a run, and every theorem about runs
  holds of it. `Wait` and its loop terminate because Dafny's termination check accepts them.
* **Globs and the policy engine** (`Glob`, `GlobLaws`, `Json`, `Engine`, `ConfigModels`, `RuleLaws`). The compiler's
  index loop builds a regular expression; `InLang` is full match and `Match` adds what Python's `$` allows, a final
  newline. `GlobMatches` is the independent meaning, stated by runs of stars, not by the compiler's pairing.
  `RuleLaws` says what a rule and a configured policy ask of a call in the configuration's own terms.
* **Redaction and naming** (`Redaction`, `RedactionLaws`, `Disclosure`, `Registry`, `Timestamps`). Redaction as a
  recursion over JSON trees, what each documented kind of pattern does to the places of a tree, what a recorded
  decision gives away besides, the namespacing pair, the registry's nested loops, and the text form of timestamps
  the sweep compares. A place is an address: a list of keys and list positions.

Where documentation and code part, the model follows the code:

* `registry.py:6-9` says splitting is unambiguous because upstream names contain no `__`. A name ending in `_` is
  accepted by the schema and misread: `fs_` + `x` splits as `fs` + `_x` (`Registry.UnderscoreNameMisreads`).
  `Registry.SplitUndoesNamespace` and `Registry.BuildLosesNothing` give the exact conditions.
* A retry is not compared with the row it names, and does not consume it. So an approved row carries any retry that
  names it (`ProtocolTheorems.ApprovalServesAnyRetry`), and misuse is possible exactly for retries that do not repeat
  the row's call (`ProtocolTheorems.MisuseIsExactlyNotRepeating`). `ProtocolTheorems.HonestRetriesBind` is what each
  caller gets whose retries do.
* The repository's README (line 258) and `audit/models.py:43-45` promise that a redacted secret never reaches the
  database. The audit table keeps that of the arguments it stores. But a call that is parked for approval is stored
  in the approvals table, in the same file, with its raw arguments (`approvals/store.py:67-84`), whatever the
  patterns: `ProtocolStorage.ParkedCallIsStoredRaw` is the input and `ProtocolStorage.RawArgumentsStoredExactly` the
  exact condition. Any other call leaves only its event (`ProtocolStorage.OthersTellOnlyTheVisible`), and that shows
  no more than is visible as long as no rule reads a masked path, since the decision is taken on the raw arguments
  (`Disclosure`).
* The README (line 28) and CONTRIBUTING.md (line 68) promise that no answer within the timeout is a denial. No
  deadline ends a request by itself, and `resolve` does not look at it. A request is pending until somebody decides it
  or sweeps past its deadline (`ProtocolDeadlines.PendingExactlyUntil`), so a first decision lands, however late,
  exactly if no such sweep came before it (`ProtocolDeadlines.FirstDecisionLands`);
  `ProtocolDeadlines.LateApprovalForwards` is the input.
* `audit/models.py:27-28` says of a dismissal that no approver ever ruled on it. The label says something else: that
  this call itself read the request as pending (`ProtocolOutcomes.RefusalIsJustified`). A human's denial that lands
  between that read and the dismissal is filed as a dismissal (`ProtocolOutcomes.DenialFiledAsDismissal`), and the
  next retry of a dismissed request is filed as an approver's denial (`ProtocolOutcomes.DismissalFiledAsDenial`),
  against `gateway.py:321-324`. The approver on the row tells which it was, unless a human uses a system name
  (`ProtocolOutcomes.RefusalNamesItsActor`).

* `audit/models.py:47-52` describes redaction patterns by nesting levels. A slash in a key counts as a level too, so
  `auth.token` also masks a top-level key `auth/token` (`RedactionLaws.SlashInKeyIsALevel` is such an input). On
  places whose keys hold no slash and are not empty, the patterns mean what is described, a final newline in the
  last key apart (`RedactionLaws.LiteralMasksItsPlace`, `StarKeyMasksOneLevelDown`, `TailMasksAllBeneath`).
* The README's example (line 173) redacts `**.token`. That masks the key wherever it is nested, but not at the top
  of the arguments: `RedactionLaws.AnyStarsMaskBelowTheTop` says exactly which places it masks.

Times are microseconds since a fixed epoch, within the four-digit years `isoformat` prints (`Timestamps.Time`).
An upstream's answer, a fresh id, and who moves next are nondeterministic.

## Model

| member | source | states |
|---|---|---|
| ProtocolInvariant.MovesKeepInv | src/mcp_gatekeeper/proxy/gateway.py:100-387 | every move of every handler, approver, page and clock keeps the invariant: each handler holds only rows that exist, rows it acts on are resolved and final, set events belong to resolved rows, each event has one author |
| ProtocolInvariant.RunsKeepInv | src/mcp_gatekeeper/approvals/service.py:85-178 | so every state of every run satisfies it |
| ProtocolTheorems.RowsEvolveAlong | src/mcp_gatekeeper/approvals/store.py:104-168 | along a run no row is lost, no request changes, no decision is replaced, and time never goes back |
| ProtocolTheorems.SingleAssignment | src/mcp_gatekeeper/approvals/store.py:104-127 | a resolved row never changes again, and at most one move of a run takes a given row out of pending |
| ProtocolTheorems.ActingMeansFinal | src/mcp_gatekeeper/proxy/gateway.py:299-342 | the row a handler acts on is resolved and is the row the database ends the run with |
| ProtocolTheorems.Agreement | src/mcp_gatekeeper/proxy/gateway.py:299-342 | two handlers that act on one approval, at any two moments of a run, act on the identical resolved row |
| ProtocolTheorems.NothingVanishes | src/mcp_gatekeeper/proxy/gateway.py:356-357 | no handler ever finds its approval gone, and none acts on a pending row |
| ProtocolTheorems.WaitIsBounded | src/mcp_gatekeeper/approvals/service.py:143-156 | a wait begins at most ceil(timeout / poll interval) sleeps; at any moment a sleep ends within one poll interval and by the deadline; and a poll that finds its row pending comes after a sleep that lasted its whole interval: the loop neither spins nor oversleeps |
| ProtocolTheorems.WaitersNotice | src/mcp_gatekeeper/approvals/service.py:10-12 | once a row is resolved, a handler waiting for it begins at most one more sleep, whoever resolved it and whether or not its event is set |
| ProtocolProgress.RoundsAreBounded | src/mcp_gatekeeper/approvals/service.py:143-158 | the bound on sleeps at every place of the wait loop |
| ProtocolProgress.RunFalls | src/mcp_gatekeeper/proxy/gateway.py:100-428 | every move of a handler strictly lowers the number of moves it still has before it |
| ProtocolProgress.EveryCallIsBounded | src/mcp_gatekeeper/proxy/gateway.py:100-428 | in any run a call makes at most 12 + 4 * ceil(timeout / poll interval) moves of its own, whatever others do |
| ProtocolProgress.NeverStuck | src/mcp_gatekeeper/approvals/service.py:143-158 | an unfinished call can move on at once, or as soon as the clock has reached its timer |
| ProtocolTheorems.ForwardingIsJustified | src/mcp_gatekeeper/proxy/gateway.py:126-141 | every upstream call carries its handler's own tool and arguments, and was made because the policy's decision on this request is ALLOW, or on an approved row, which is the one the retry names or, for a held call, the one this very handler drew the id of and opened, naming the upstream called |
| ProtocolTheorems.HeldCallsNeverShare | src/mcp_gatekeeper/proxy/gateway.py:260-301 | two held calls, however alike, are never released by one approval |
| ProtocolOutcomes.RefusalIsJustified | src/mcp_gatekeeper/proxy/gateway.py:320-366 | a refused call never reached an upstream; it was refused because the policy denies it, or on its own or its named row, settled and not approved; and it is filed as a dismissal if and only if this very call has read the row as pending, by the row's status if not |
| ProtocolOutcomes.LabelsFit | src/mcp_gatekeeper/proxy/gateway.py:320-341 | at every place of its life a handler is set to dismiss, or file as dismissed, exactly if it has read its request as pending |
| ProtocolOutcomes.DenialFiledAsDismissal | src/mcp_gatekeeper/proxy/gateway.py:313-341 | the input: any run with a pending row that is not overdue goes on so that a human's denial of it is recorded as dismissed by the client, with the human as approver |
| ProtocolOutcomes.DismissalFiledAsDenial | src/mcp_gatekeeper/proxy/gateway.py:362-367 | the input: any retry of a request the client has dismissed goes on to be recorded as denied by an approver |
| ProtocolOutcomes.ActorIsOnRow | src/mcp_gatekeeper/approvals/service.py:160-174 | status and approver of a settled row tell whether a human, the timer, the client or a sweep settled it, if and only if the move was not a human's under the name the system uses for that decision |
| ProtocolOutcomes.ActorsAreKnown | src/mcp_gatekeeper/approvals/service.py:164-165 | so of every row settled in a run in which no human does that, for good |
| ProtocolOutcomes.RefusalNamesItsActor | src/mcp_gatekeeper/proxy/gateway.py:362-378 | in such a run a refusal on a row settled in it comes of a human's decision exactly if the row names a human; one filed as an approver's denial, exactly if the row does not name the client |
| ProtocolOutcomes.AnswerIsDetermined | src/mcp_gatekeeper/proxy/gateway.py:114-141 | completeness: registry, decision, elicitation and row determine the answer of a finished call. Unknown tools are refused, allowed calls passed on if connected, denied ones refused, parked ones given a link or dealt with as their own row says, retries as the row they name says, or told there is none |
| ProtocolOutcomes.LinkGoesWhereItWorks | src/mcp_gatekeeper/proxy/gateway.py:391-397 | over all runs a client is handed a link if and only if its call is parked and either the mode is elicit, or it is auto and the client supports links; so mode block never hands one out, and a client that cannot follow one gets it only under elicit |
| ProtocolOutcomes.StoredIsFound | src/mcp_gatekeeper/proxy/gateway.py:313-318 | a retry naming a row that was stored when it arrived is never told that there is none |
| ProtocolTheorems.OnlyApprovalApproves | src/mcp_gatekeeper/approvals/service.py:85-110 | a row becomes approved only by a human's approving decision, or by the timeout where the configuration lets it; never by a retry, dismissal, sweep or opening |
| ProtocolTheorems.ApprovalHasOneCause | src/mcp_gatekeeper/approvals/service.py:160-174 | an approved row has exactly one approving move in the run's past |
| ProtocolTheorems.SilenceIsNotConsent | src/mcp_gatekeeper/approvals/service.py:54-55 | with approve_on_timeout off, every forward on an approval that the database did not hold at the start goes back to one human decision taken while the row was pending, whose approver is the one on the row |
| ProtocolDeadlines.PendingExactlyUntil | src/mcp_gatekeeper/approvals/store.py:104-168 | a request once pending is still pending if and only if, since, nobody decided it and nobody swept at a moment past its deadline |
| ProtocolDeadlines.FirstDecisionLands | src/mcp_gatekeeper/approvals/store.py:111-123 | the first decision on a pending request, by whomever and however late, settles it if and only if no sweep past its deadline came before |
| ProtocolDeadlines.LateApprovalForwards | src/mcp_gatekeeper/approvals/store.py:111 | the input: any run with a request overdue but not swept goes on so that it is approved after its deadline and its retry reaches the upstream |
| ProtocolDeadlines.TimerIsTheHoldersOwn | src/mcp_gatekeeper/approvals/service.py:143-172 | the timer that approves belongs to the held call that opened the request, exists only with the option on, and is never early |
| ProtocolDeadlines.TimerApprovesExactly | src/mcp_gatekeeper/approvals/service.py:160-174 | that timer approves its request if and only if it was left alone: nobody decided it, and no page or retry swept past its deadline |
| ProtocolDeadlines.ElicitedIsNeverAutoApproved | src/mcp_gatekeeper/proxy/gateway.py:269-297 | a request whose client was handed a link is never approved by the timer |
| ProtocolTheorems.ExactlyOneEvent | src/mcp_gatekeeper/proxy/gateway.py:399-428 | a finished call reached an upstream at most once and left exactly one event, none if auditing is off or it was a retry naming no stored approval. Field by field that event tells the call (tool, client, redacted arguments, upstream of its entry), the decision (action, source, reason, rule; or that the tool is unregistered or the upstream unavailable), the reply (outcome and status) and the approval it was refused, parked or sent on with its approver |
| ProtocolTheorems.TellingIsReporting | src/mcp_gatekeeper/proxy/gateway.py:399-428 | the event built for an answer tells call, decision, reply and approval in those fields, as projections |
| ProtocolTheorems.UpstreamSeems | src/mcp_gatekeeper/proxy/gateway.py:145-166 | the upstream recorded for an unregistered name is what stands before its first separator if both sides are non-empty, "unknown" if the name does not split so |
| ProtocolTheorems.TrailOnlyGrows | src/mcp_gatekeeper/audit/store.py:91-113 | no event is ever lost or rewritten |
| ProtocolTheorems.EventsAreNew | src/mcp_gatekeeper/audit/store.py:91-113 | events keep their author, and an event written later takes the place of none that was there |
| ProtocolTheorems.TrailCountsCalls | src/mcp_gatekeeper/audit/store.py:141-143 | what count() counts: the events found at the start and, with auditing on, one for every answered call except retries naming no stored approval |
| ProtocolTheorems.ForwardedEventsBalance | src/mcp_gatekeeper/proxy/gateway.py:197-225 | with auditing on, FORWARDED events and events still being recorded together equal, in number, the upstream calls that returned |
| ProtocolTheorems.HonestRetriesBind | src/mcp_gatekeeper/proxy/gateway.py:303-342 | with the registry fixed, a call that is no retry or repeats what its row was opened for reaches an upstream only if the policy allows it, or asks for approval and the row's tool, arguments and upstream are those of the call sent; for a row the database held at the start, provided the policy still asks for approval of what it was opened for and its upstream is still the tool's; what other callers do does not matter |
| ProtocolTheorems.ApprovalServesAnyRetry | src/mcp_gatekeeper/proxy/gateway.py:130-131 | any run in which a row is approved goes on to forward any given retry naming it, with its own arguments |
| ProtocolTheorems.MisuseIsExactlyNotRepeating | src/mcp_gatekeeper/proxy/gateway.py:313-342 | a retry can be forwarded on an approved row with a call that row was not opened for, if and only if it does not repeat the row's tool and arguments |
| Runtime.EventLoop.Yield | src/mcp_gatekeeper/db.py:148-166 | an await: any moves of others happen, the suspended task finds its own state untouched, and the objects still hold what the run says |
| Runtime.ApprovalService.Open | src/mcp_gatekeeper/approvals/service.py:59-83 | the returned request carries the call, expires one timeout after now, is new to the store, is stored as asked, and has an event |
| Runtime.ApprovalService.Decide | src/mcp_gatekeeper/approvals/service.py:85-95 | the row returned is what the decision made of the table it met between call and return: this decision if the row was pending, the earlier one if not; it is stored so, and the row's event, if any, is set |
| Runtime.ApprovalService.Dismiss | src/mcp_gatekeeper/approvals/service.py:97-110 | the row returned is what the client's dismissal made of the table it met: denied if it was pending, the earlier decision if not; the event found on resuming is dropped and set |
| Runtime.ApprovalService.Get | src/mcp_gatekeeper/approvals/service.py:112-125 | the row returned is the one asked for, was not overdue at the moment it was checked, which lies between call and return, and is stored so if resolved |
| Runtime.ApprovalService.Wait | src/mcp_gatekeeper/approvals/service.py:127-158 | the loop ends, and returns the row with the given id, resolved, and equal to the stored one |
| Runtime.ApprovalService.Round | src/mcp_gatekeeper/approvals/service.py:143-156 | a round of the loop that finds no answer has taken time, and what it finds is a reading of this row |
| Runtime.ApprovalService.SettleTimeout | src/mcp_gatekeeper/approvals/service.py:160-174 | the row returned is what the timeout made of the table it met: approved by the system if that is configured, expired by the sweep if not, and the earlier decision if there was one |
| Runtime.ApprovalService.Pending | src/mcp_gatekeeper/approvals/service.py:176-178 | exactly the pending rows, in the order of their creation, none of those stored before overdue at the time of the call |
| Runtime.Gateway.CallTool | src/mcp_gatekeeper/proxy/gateway.py:100-141 | in the parameters of the call: every upstream call made for it carries the given arguments (none if none were given) and the entry registered under the name; a non-empty request state that comes with input responses is acted on as the row it names says, which is found if it was stored; in every other case the answer is what the policy decides of the named tool and these arguments; and one new event tells it |
| Runtime.Gateway.UnknownTool | src/mcp_gatekeeper/proxy/gateway.py:145-168 | a tool not in the registry is refused as such, the event says so, and nothing is sent |
| Runtime.Gateway.Forward | src/mcp_gatekeeper/proxy/gateway.py:170-225 | one upstream call with the request's arguments and this approval if the upstream is connected, none otherwise, and the event its reply calls for |
| Runtime.Gateway.Deny | src/mcp_gatekeeper/proxy/gateway.py:227-249 | the call is refused as denied by policy, nothing is sent, and the event says so |
| Runtime.Gateway.RequireApproval | src/mcp_gatekeeper/proxy/gateway.py:251-301 | a new request is stored; the client is answered with its link if and only if the mode is elicit, or auto and the client supports it, and then nothing is sent; otherwise the call is acted on as the settled row says |
| Runtime.Gateway.Resume | src/mcp_gatekeeper/proxy/gateway.py:303-342 | a retry naming a stored row is acted on as that row, settled, says, and a refusal is filed as a dismissal exactly if the call has read the row as pending; one naming no stored row sends nothing |
| Runtime.Gateway.ApplyApproval | src/mcp_gatekeeper/proxy/gateway.py:344-387 | an approved row is forwarded on, any other is refused with that row under the outcome its status, or the dismissal, calls for |
| Runtime.Gateway.Record | src/mcp_gatekeeper/proxy/gateway.py:399-428 | the event stored, under an id not used before, has in its twelve fields the tool, upstream, client, redacted arguments, action, source, reason, rule, outcome, status, approval id and approver given; the null store drops it; the handler is otherwise unchanged |
| Runtime.EventLoop.CountEvents | src/mcp_gatekeeper/audit/store.py:141-143 | the number counted is that of the events found at the start and of the calls answered since, retries naming no stored approval aside; none with auditing off |
| Runtime.AnswerIsOnRecord | src/mcp_gatekeeper/proxy/gateway.py:399-428 | the one event a handler wrote is stored and is the one its answer calls for |
| Runtime.Gateway.RefreshRegistry | src/mcp_gatekeeper/proxy/gateway.py:82-94 | the current registry becomes the one built from what the upstreams advertise |
| Runtime.CallIsAudited | src/mcp_gatekeeper/proxy/gateway.py:399-428 | a call begun after one state and finished by another left exactly one event, which was in no earlier trail |
| Runtime.CallIsServed | src/mcp_gatekeeper/proxy/gateway.py:112-141 | what any finished call comes to, given the registry and rows it found: refused as unknown, dealt with as the row its state names says, passed on, denied, handed a link, or dealt with as a row of its own says |
| ApprovalStore.SqliteApprovalStore.Create | src/mcp_gatekeeper/approvals/store.py:67-84 | one row is added |
| ApprovalStore.SqliteApprovalStore.Get | src/mcp_gatekeeper/approvals/store.py:86-90 | the stored row, if there is one |
| ApprovalStore.SqliteApprovalStore.Resolve | src/mcp_gatekeeper/approvals/store.py:92-130 | a pending row gets the decision, any other is left alone, and the row as it now stands is returned, resolved |
| ApprovalStore.SqliteApprovalStore.ListPending | src/mcp_gatekeeper/approvals/store.py:132-137 | exactly the pending rows, each once, ordered by the text of their creation, which is the order of creation |
| ApprovalStore.SqliteApprovalStore.ExpireOverdue | src/mcp_gatekeeper/approvals/store.py:145-168 | afterwards no row is overdue, and the number returned is that of the rows for which is_expired_at held |
| ApprovalStore.ResolveEvolves | src/mcp_gatekeeper/approvals/store.py:104-127 | resolving loses no row, changes no other row and no resolved one, and leaves the named row resolved: a pending one with this decision, approver, note and time |
| ApprovalStore.SweepExpiresExactly | src/mcp_gatekeeper/approvals/store.py:145-168 | the text comparison of the sweep expires exactly the rows for which is_expired_at holds |
| ApprovalStore.FirstDecisionStands | src/mcp_gatekeeper/approvals/store.py:95-100 | of two approvers clicking at once the first wins and the second changes nothing |
| Timestamps.TextOrderIsTimeOrder | src/mcp_gatekeeper/approvals/store.py:152-164 | isoformat texts with 0 or 6 fractional digits compare as the times they stand for |
| AuditStore.SqliteAuditStore.Record | src/mcp_gatekeeper/audit/store.py:91-113 | keyed insert: a new id adds one event and touches no other |
| AuditStore.OneDecisionTwoArguments | src/mcp_gatekeeper/audit/models.py:103-128 | two events of one decision and outcome are equal exactly when their arguments agree wherever no pattern hides them |
| ProtocolStorage.RawArgumentsStoredExactly | src/mcp_gatekeeper/approvals/store.py:67-84 | once past the insert, a call has its raw arguments in the approvals table, under an id drawn for it, if and only if its tool was found, it is no retry and the policy asks for approval; any other has no id at all |
| ProtocolStorage.ParkedCallIsStoredRaw | src/mcp_gatekeeper/approvals/service.py:69-81 | the input: any call that needs approval goes on to be stored with its arguments as they came, whatever the redaction patterns |
| ProtocolStorage.RowsAreOldOrParked | src/mcp_gatekeeper/approvals/store.py:67-84 | every row was there at the start or holds the tool and arguments of the parked call its id was drawn for |
| ProtocolStorage.OthersTellOnlyTheVisible | src/mcp_gatekeeper/audit/models.py:40-79 | a call that is not parked leaves no row and at most its event, which, if no rule reads a hidden path, would be the same for other arguments exactly if they agree wherever nothing is hidden |
| Disclosure.DecisionsReadOnlyTheVisible | src/mcp_gatekeeper/policy/engine.py:47-110 | if no rule's condition reads a path at or beneath a masked one, arguments that agree elsewhere are decided alike |
| Disclosure.EventsRevealOnlyTheVisible | src/mcp_gatekeeper/proxy/gateway.py:118-126 | under that condition the event of a call, decision included, reveals of the raw arguments exactly what no pattern hides |
| Disclosure.SafeIffVisible | src/mcp_gatekeeper/policy/engine.py:47-55 | a path can be read by any policy without showing through its decisions if and only if it is not hidden |
| Disclosure.HiddenPathShows | src/mcp_gatekeeper/policy/engine.py:47-55 | the input that shows it: two arguments alike but for a hidden value, and a policy that denies the one and allows the other |
| Glob.Compile | src/mcp_gatekeeper/policy/glob.py:22-61 | the expression built by the index loop has exactly the declarative language of the pattern, in both modes |
| Glob.CompiledMatch | src/mcp_gatekeeper/policy/glob.py:74-81 | matching with the compiled expression, final newline included, is the declarative acceptance |
| Glob.TokensMean | src/mcp_gatekeeper/policy/glob.py:31-58 | left-to-right pairing of stars means the same as maximal runs of stars |
| GlobLaws.TrailingLaw | src/mcp_gatekeeper/policy/glob.py:43-51 | a pattern with a slash and two stars appended matches what the pattern matches and everything beneath it, and nothing else |
| GlobLaws.TrailingLawDomain | src/mcp_gatekeeper/policy/glob.py:43-51 | that law holds of every value if and only if the pattern does not itself end in a slash and two stars |
| GlobLaws.ModeInclusion | src/mcp_gatekeeper/policy/glob.py:31-58 | path mode accepts no more than tool mode if and only if the pattern does not end in a slash and two stars |
| GlobLaws.SegmentConservation | src/mcp_gatekeeper/policy/glob.py:41-58 | every accepted value has exactly the pattern's number of slashes if and only if no two stars are adjacent |
| GlobLaws.LiteralMatches | src/mcp_gatekeeper/policy/glob.py:55-61 | a pattern without wildcards matches itself, and itself before a final newline |
| Json.ResolveArgument | src/mcp_gatekeeper/policy/engine.py:28-44 | the loop finds what is at the dotted path |
| Json.SplitJoin | src/mcp_gatekeeper/policy/engine.py:37-39 | joining what was split at dots gives the path back |
| Json.JoinSplit | src/mcp_gatekeeper/policy/engine.py:37 | and splitting what was joined from segments free of dots gives the segments back |
| Json.LookupAbsent | src/mcp_gatekeeper/policy/engine.py:38-44 | an absent path reads as null |
| Engine.Evaluate | src/mcp_gatekeeper/policy/engine.py:89-110 | the decision of the least matching rule, or the default when none matches; what matching is, RuleMatchesExactly says |
| Engine.FirstMatchIsLeast | src/mcp_gatekeeper/policy/engine.py:89-110 | the index found matches and nothing before it does |
| Engine.ConcatenatedRules | src/mcp_gatekeeper/policy/engine.py:96-110 | a list in two parts decides as its first part, else as its second with the index shifted |
| Engine.DeletedRule | src/mcp_gatekeeper/policy/engine.py:96-110 | deleting a rule whose matches earlier rules cover changes no outcome |
| Engine.ReorderedConditions | src/mcp_gatekeeper/policy/engine.py:75-86 | permuting or repeating a rule's argument conditions changes no decision |
| Engine.StatingHintsIsMonotone | src/mcp_gatekeeper/policy/engine.py:58-72 | stating more hints loses no match and moves the decision to an equal or earlier rule, or from the default to a rule |
| Engine.UnstatedHintsNeverMatch | src/mcp_gatekeeper/policy/engine.py:58-72 | a tool that states no hints is reached only by rules that ask for none |
| RuleLaws.RuleMatchesExactly | src/mcp_gatekeeper/policy/engine.py:47-86 | a rule matches a call if and only if all it asks for is met: the upstream it names, the tool name in tool mode, each of the four hints stated with the value asked for, and at every argument condition's path a non-null scalar whose text the pattern takes in path mode |
| RuleLaws.ConditionsJoin | src/mcp_gatekeeper/policy/engine.py:86 | a rule with two condition lists joined matches exactly what it matches with each list alone |
| RuleLaws.BuiltRuleAsks | src/mcp_gatekeeper/config/models.py:109-136 | the rule built from a configured one matches exactly the calls the configuration describes, each hint and each argument under its own name |
| RuleLaws.ConfiguredDecision | src/mcp_gatekeeper/policy/engine.py:89-110 | from configuration to decision: the first configured rule whose demands a call meets decides it, with that rule's action and reason; the configured default if there is none |
| ConfigModels.ValidateUpstreams | src/mcp_gatekeeper/config/models.py:210-225 | accepted exactly when names are distinct and every rule's target is known; otherwise the error that says so |
| ConfigModels.BuildOrderIsImmaterial | src/mcp_gatekeeper/config/models.py:109-136 | whatever order the argument conditions are listed in, the built policies decide alike |
| Redaction.RedactionKernel | src/mcp_gatekeeper/audit/models.py:59-79 | two trees redact to the same tree if and only if they agree everywhere but at and beneath masked paths; which those are for each kind of pattern, RedactionLaws says |
| Redaction.StoredArgumentsDependOn | src/mcp_gatekeeper/audit/models.py:121 | the stored arguments depend on nothing else |
| Redaction.RedactTwice | src/mcp_gatekeeper/audit/models.py:62-78 | redacting with one list and then another is redacting once with both |
| Redaction.OnlyTheSetMatters | src/mcp_gatekeeper/audit/models.py:62-78 | only the set of patterns matters |
| Redaction.RedactionComposes | src/mcp_gatekeeper/audit/models.py:62-79 | hence redaction of arguments composes, is idempotent and does not depend on the order of patterns |
| Redaction.RulesReadWhatRedactionMasks | src/mcp_gatekeeper/policy/engine.py:28-44 | at a literal dotted path where a rule reads a value, it reads the mask after redaction with that path |
| RedactionLaws.VisibleStays | src/mcp_gatekeeper/audit/models.py:62-75 | a place that no pattern matches, nor anything above it, looks as before redaction |
| RedactionLaws.MaskArises | src/mcp_gatekeeper/audit/models.py:62-75 | a place newly holds the mask only if it held something and a pattern matches that very place |
| RedactionLaws.MasksOnItsLevel | src/mcp_gatekeeper/audit/models.py:54-57 | a pattern without adjacent stars puts the mask only at places with exactly as many steps as it has dotted levels, and every shorter one looks as before |
| RedactionLaws.LiteralMasksItsPlace | src/mcp_gatekeeper/audit/models.py:49-50 | a literal dotted path masks the place whose steps it names, list positions in decimal included, and no other place newly holds the mask |
| RedactionLaws.StarKeyMasksOneLevelDown | src/mcp_gatekeeper/audit/models.py:51 | a star and a key mask that key at places of exactly two steps, whatever the first, and nowhere else |
| RedactionLaws.TailMasksAllBeneath | src/mcp_gatekeeper/audit/models.py:52 | a literal path with a dot and two stars leaves the mask at its place, nothing readable beneath it, and everything else as before |
| RedactionLaws.AnyStarsMaskBelowTheTop | README.md:173 | two stars and a key mask that key at every place of two or more steps, leave nothing beneath it, and everything else as before, the same key at the top included |
| RedactionLaws.DecimalReads | src/mcp_gatekeeper/audit/models.py:74-75 | a list position is written with digits only, without a leading zero, and reads back as the position |
| RedactionLaws.PathIsJoined | src/mcp_gatekeeper/audit/models.py:70 | the path a place is matched by joins the texts of its steps with slashes |
| RedactionLaws.SlashInKeyIsALevel | src/mcp_gatekeeper/audit/models.py:54-57 | the input: a top-level key with a slash in it is masked by the pattern of a nested key |
| Registry.SplitUndoesNamespace | src/mcp_gatekeeper/proxy/registry.py:31-45 | for a valid upstream name and a tool name, splitting recovers both if and only if the upstream does not end in an underscore |
| Registry.ValidNameSplits | src/mcp_gatekeeper/config/models.py:55-67 | so for every upstream name the schema accepts |
| Registry.NamespaceUndoesSplit | src/mcp_gatekeeper/proxy/registry.py:36-45 | what a name splits into makes that name again |
| Registry.UnderscoreNameMisreads | src/mcp_gatekeeper/config/models.py:55-67 | a name the schema accepts that splits wrongly |
| Registry.NamesCoincide | src/mcp_gatekeeper/proxy/registry.py:31-33 | two namespaced names coincide exactly when they are of the same pair or clash by one underscore |
| Registry.Build | src/mcp_gatekeeper/proxy/registry.py:48-112 | the nested loops keep, for every advertised name, a copy of the last tool advertised under it, with that tool's upstream, own name, definition and hints (none stated if it carries none), and no other entry |
| Registry.BuildLosesNothing | src/mcp_gatekeeper/proxy/registry.py:100-115 | every advertised tool is found under its name as itself if and only if no two clash |
| Registry.TidyNamesLoseNothing | src/mcp_gatekeeper/proxy/registry.py:100-115 | in particular when no upstream's name ends in an underscore, and then each entry splits back into its pair |

## Left out

- SQLite, WAL, threads and the database wrapper: a database call is one atomic move, and rows are never deleted.
- Cancelled handlers, exceptions other than an upstream's, and a process restarted in mid-call: a run starts with no handlers, on whatever rows and events the database holds.
- Fairness: that a suspended task is resumed at all is not claimed; given that it is, calls end (`ProtocolProgress`).
- Runtime.Gateway.CallTool: a deadline past the year 9999 is a precondition here and an OverflowError there.
- Runtime.ApprovalService.Decide: the id submitted is stored already or is never drawn later, which 24 random bytes make all but certain; a decision on an id drawn but not yet stored would set the event of a pending row.
- Protocol.RunNext: the clock stands still during a stretch of code between two awaits, and approval and event ids are drawn fresh.
- Event objects: an event is a number in a table of events made and events set; who else holds a reference is not modelled.
- Runtime.EventLoop.Yield: other tasks act through the protocol's moves on a copy of the process, not through further calls of these methods.
- ApprovalStore.SqliteApprovalStore.ListPending: rows created at the same instant come in some order.
- The JSON text of stored arguments: a row holds the arguments themselves.
- Message texts, latencies, error strings, creation times of events, and logging.
- `recent`, `export_jsonl`, audit filters and paging, `listing`, `names` and `Decision.describe`.
- The MCP server, upstream transports, capability parsing, web UI, CLI, YAML loading and pydantic's messages. The upstream answers anything or raises; elicitation support is a boolean; connections are fixed.
- Redaction.Redact: arguments are JSON trees, so non-string keys and values that are no JSON are not modelled; a number is its token.
- Python's regular expressions: `_compile` builds an expression tree with a language, so escaping and `lru_cache` do not appear.
- ConfigModels.ValidateUpstreams: the set of messages is reduced to which check failed on what.
