/**
 * What an audit event gives away of the arguments it was built from: by the arguments it stores, and by the
 * decision it records, which the policy took on the raw ones.
 */
module Disclosure {
  import opened Wrappers
  import opened Glob
  import opened Json
  import opened Redaction
  import opened Engine
  import opened ApprovalStore
  import opened AuditStore
  import GlobLaws

  // ---- what a condition reads ---------------------------------------------------

  /** The address a dotted path reads. */
  function Keys(segments: seq<string>): seq<Step> {
    if segments == [] then [] else [Key(segments[0])] + Keys(segments[1..])
  }

  function Address(path: string): seq<Step> { Keys(Split(path, '.')) }

  /** The path lies at or beneath one that some pattern matches. */
  ghost predicate HiddenPath(patterns: seq<string>, path: string) { Hidden(patterns, "", Address(path)) }

  /** Looking a chain of keys up gives the node at its address, or null. */
  lemma {:induction false} LookupIsAt(v: Json, segments: seq<string>)
    ensures Lookup(v, segments) == (match At(v, Keys(segments)) case Some(node) => node case None => Null)
    decreases |segments|
  {
    if segments != [] {
      assert Keys(segments)[1..] == Keys(segments[1..]);
      if v.Obj? && segments[0] in v.fields { LookupIsAt(v.fields[segments[0]], segments[1..]); }
    }
  }

  lemma VisibleConditionsAgree(patterns: seq<string>, a: Arguments, b: Arguments, condition: ArgumentCondition)
    requires Agree(patterns, "", Obj(a), Obj(b)) && !HiddenPath(patterns, condition.path)
    ensures ArgumentMatches(a, condition) <==> ArgumentMatches(b, condition)
  {
    var segments := Split(condition.path, '.');
    LookupIsAt(Obj(a), segments);
    LookupIsAt(Obj(b), segments);
    assert FaceOf(At(Obj(a), Keys(segments))) == FaceOf(At(Obj(b), Keys(segments)));
  }

  // ---- decisions -------------------------------------------------------------------

  /** No rule of the policy reads a hidden path. */
  ghost predicate ReadsVisible(policy: Policy, patterns: seq<string>) {
    forall rule <- policy.rules, condition <- rule.condition.arguments :: !HiddenPath(patterns, condition.path)
  }

  /** A policy that reads no hidden path decides on what the redacted arguments show. */
  lemma DecisionsReadOnlyTheVisible(policy: Policy, patterns: seq<string>, request: PolicyRequest, b: Arguments)
    requires ReadsVisible(policy, patterns) && Agree(patterns, "", Obj(request.arguments), Obj(b))
    ensures Decide(request.(arguments := b), policy) == Decide(request, policy)
  {
    var other := request.(arguments := b);
    forall rule | rule in policy.rules ensures RuleMatches(rule, request) <==> RuleMatches(rule, other) {
      forall condition | condition in rule.condition.arguments
        ensures ArgumentMatches(request.arguments, condition) <==> ArgumentMatches(b, condition)
      {
        VisibleConditionsAgree(patterns, request.arguments, b, condition);
      }
    }
    FirstMatchIsLeast(policy.rules, request);
    FirstMatchIsLeast(policy.rules, other);
  }

  /** The event of a call the policy has decided on. */
  function EventOfCall(policy: Policy, redact: seq<string>, request: PolicyRequest, outcome: Outcome,
                       clientName: Option<string>, status: Option<ResultStatus>, approval: Option<Row>): AuditEvent
  {
    BuildEvent(request.tool, request.upstream, request.arguments, Decide(request, policy), outcome, redact,
               clientName, status, approval)
  }

  /** If no rule reads a hidden path, an event reveals of a call's arguments only what no pattern hides. */
  lemma EventsRevealOnlyTheVisible(policy: Policy, redact: seq<string>, request: PolicyRequest, b: Arguments,
                                   outcome: Outcome, clientName: Option<string>, status: Option<ResultStatus>,
                                   approval: Option<Row>)
    requires ReadsVisible(policy, redact)
    ensures EventOfCall(policy, redact, request, outcome, clientName, status, approval)
              == EventOfCall(policy, redact, request.(arguments := b), outcome, clientName, status, approval)
            <==> Agree(redact, "", Obj(request.arguments), Obj(b))
  {
    StoredArgumentsDependOn(redact, request.arguments, b);
    if Agree(redact, "", Obj(request.arguments), Obj(b)) {
      DecisionsReadOnlyTheVisible(policy, redact, request, b);
    }
  }

  // ---- and why the condition is needed ---------------------------------------------------

  /** Arguments that hold one value at one path. */
  function Nest(segments: seq<string>, leaf: Json): Json {
    if segments == [] then leaf else Obj(map[segments[0] := Nest(segments[1..], leaf)])
  }

  lemma {:induction false} NestLookup(segments: seq<string>, leaf: Json)
    ensures Lookup(Nest(segments, leaf), segments) == leaf
    decreases |segments|
  {
    if segments != [] { NestLookup(segments[1..], leaf); }
  }

  /** Two such arguments differ at that path alone. */
  lemma {:induction false} NestsAgree(segments: seq<string>, x: string, y: string, address: seq<Step>)
    requires address != Keys(segments)
    ensures FaceOf(At(Nest(segments, Str(x)), address)) == FaceOf(At(Nest(segments, Str(y)), address))
    decreases |segments|
  {
    if segments != [] && address != [] && address[0] == Key(segments[0]) {
      assert address == [address[0]] + address[1..];
      NestsAgree(segments[1..], x, y, address[1..]);
    }
  }

  /** Denies every call whose argument at this path is "x", and allows the rest. */
  function Watching(path: string): Policy {
    Policy([Rule("*", Deny, RuleCondition([ArgumentCondition(path, "x")], None, None, None, None), None, None)],
           Allow, None)
  }

  lemma WatchingDecides(path: string, request: PolicyRequest)
    ensures Decide(request, Watching(path)).action ==
              if ArgumentMatches(request.arguments, ArgumentCondition(path, "x")) then Deny else Allow
  {
    var rule := Watching(path).rules[0];
    assert request.tool[|request.tool|..] == "" && "*"[1..] == "";
    assert GlobMatches("*", false, request.tool);
    assert RuleMatches(rule, request) <==> ArgumentMatches(request.arguments, rule.condition.arguments[0]);
    FirstMatchIsLeast(Watching(path).rules, request);
  }

  /** The policy's rules read no path but this one. */
  ghost predicate ReadsOnly(policy: Policy, path: string) {
    forall rule <- policy.rules, condition <- rule.condition.arguments :: condition.path == path
  }

  /** Whatever a policy does with this path, arguments that agree are decided alike. */
  ghost predicate SafeToRead(patterns: seq<string>, path: string) {
    forall policy, request: PolicyRequest, b |
      ReadsOnly(policy, path) && Agree(patterns, "", Obj(request.arguments), Obj(b)) ::
      Decide(request.(arguments := b), policy) == Decide(request, policy)
  }

  /** A path is safe to read exactly if it is not hidden: every hidden one shows through some policy's decisions. */
  lemma SafeIffVisible(patterns: seq<string>, path: string)
    ensures SafeToRead(patterns, path) <==> !HiddenPath(patterns, path)
  {
    if HiddenPath(patterns, path) {
      HiddenPathShows(patterns, path, PolicyRequest("t", "u", map[], AnnotationView(None, None, None, None)));
    } else {
      forall policy, request: PolicyRequest, b |
        ReadsOnly(policy, path) && Agree(patterns, "", Obj(request.arguments), Obj(b))
        ensures Decide(request.(arguments := b), policy) == Decide(request, policy)
      {
        DecisionsReadOnlyTheVisible(policy, patterns, request, b);
      }
    }
  }

  /** The input: "x" or "y" at the hidden path, and a policy that denies "x" there. */
  lemma HiddenPathShows(patterns: seq<string>, path: string, request: PolicyRequest)
    requires HiddenPath(patterns, path)
    ensures var x := request.(arguments := Nest(Split(path, '.'), Str("x")).fields);
            var y := request.(arguments := Nest(Split(path, '.'), Str("y")).fields);
            && Agree(patterns, "", Obj(x.arguments), Obj(y.arguments)) && ReadsOnly(Watching(path), path)
            && Decide(x, Watching(path)).action == Deny && Decide(y, Watching(path)).action == Allow
    ensures !SafeToRead(patterns, path)
  {
    var segments := Split(path, '.');
    var a, b := Nest(segments, Str("x")).fields, Nest(segments, Str("y")).fields;
    forall address ensures Hidden(patterns, "", address) || FaceOf(At(Obj(a), address)) == FaceOf(At(Obj(b), address)) {
      if address != Keys(segments) { NestsAgree(segments, "x", "y", address); }
    }
    NestLookup(segments, Str("x"));
    NestLookup(segments, Str("y"));
    GlobLaws.LiteralMatches("x", true, "x");
    GlobLaws.LiteralMatches("x", true, "y");
    WatchingDecides(path, request.(arguments := a));
    WatchingDecides(path, request.(arguments := b));
    assert Decide(request.(arguments := a).(arguments := b), Watching(path))
        != Decide(request.(arguments := a), Watching(path));
  }
}
