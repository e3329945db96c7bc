/** Audit events (audit/models.py) and the table they are written to (audit/store.py). */
module AuditStore {
  import opened Wrappers
  import opened Json
  import opened Engine
  import opened Redaction
  import opened ApprovalStore

  datatype Outcome =
    | Forwarded | DeniedByPolicy | DeniedByApprover | DismissedByClient
    | TimedOut | AwaitingApproval | Error | UnknownTool

  datatype ResultStatus = ResultOk | ResultError

  /** One governed call. Times, latency, the event's own id and error texts are not modelled. */
  datatype AuditEvent = AuditEvent(
    tool: string,
    upstream: string,
    arguments: Arguments,
    action: Action,
    decisionSource: Source,
    decisionReason: Option<string>,
    ruleIndex: Option<nat>,
    outcome: Outcome,
    approvalId: Option<string>,
    approver: Option<string>,
    resultStatus: Option<ResultStatus>,
    clientName: Option<string>)

  /** An event about a call whose arguments have been redacted. */
  function MakeEvent(tool: string, upstream: string, redacted: Arguments, decision: Decision, outcome: Outcome,
                     clientName: Option<string>, status: Option<ResultStatus>, approval: Option<Row>): AuditEvent
  {
    AuditEvent(tool, upstream, redacted, decision.action, decision.source, decision.reason, decision.ruleIndex,
               outcome,
               if approval.Some? then Some(approval.value.id) else None,
               if approval.Some? then approval.value.approver else None,
               status, clientName)
  }

  /** `Gateway._record` into `AuditEvent.build`. */
  function BuildEvent(tool: string, upstream: string, arguments: Arguments, decision: Decision, outcome: Outcome,
                      redact: seq<string>, clientName: Option<string>, status: Option<ResultStatus>,
                      approval: Option<Row>): AuditEvent
  {
    MakeEvent(tool, upstream, RedactArguments(arguments, redact), decision, outcome, clientName, status, approval)
  }

  /** Of two events that differ in their arguments alone, nothing tells but what no redaction pattern hides. */
  lemma OneDecisionTwoArguments(tool: string, upstream: string, a: Arguments, b: Arguments, decision: Decision,
                                outcome: Outcome, redact: seq<string>, clientName: Option<string>,
                                status: Option<ResultStatus>, approval: Option<Row>)
    ensures BuildEvent(tool, upstream, a, decision, outcome, redact, clientName, status, approval)
              == BuildEvent(tool, upstream, b, decision, outcome, redact, clientName, status, approval)
            <==> Agree(redact, "", Obj(a), Obj(b))
  {
    StoredArgumentsDependOn(redact, a, b);
  }

  type Trail = map<string, AuditEvent>

  class SqliteAuditStore {
    var trail: Trail

    constructor (trail: Trail)
      ensures this.trail == trail
    {
      this.trail := trail;
    }

    /** Insert or replace, keyed by the event's id. */
    method Record(id: string, event: AuditEvent)
      modifies this
      ensures trail == old(trail)[id := event]
      ensures id !in old(trail) ==> |trail| == |old(trail)| + 1
    {
      trail := trail[id := event];
      assert trail.Keys == old(trail.Keys) + {id};
    }

    method Count() returns (n: nat)
      ensures n == |trail|
    {
      n := |trail|;
    }
  }
}
