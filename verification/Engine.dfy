/** Policy values (policy/models.py) and the first-match engine (policy/engine.py). */
module Engine {
  import opened Wrappers
  import opened Json
  import opened Glob

  datatype Action = Allow | Deny | RequireApproval

  /** A tool's self-declared hints; None means "not stated". */
  datatype AnnotationView = AnnotationView(
    readOnly: Option<bool>,
    destructive: Option<bool>,
    idempotent: Option<bool>,
    openWorld: Option<bool>)

  datatype PolicyRequest = PolicyRequest(
    tool: string,
    upstream: string,
    arguments: Arguments,
    annotations: AnnotationView)

  datatype ArgumentCondition = ArgumentCondition(path: string, pattern: string)

  datatype RuleCondition = RuleCondition(
    arguments: seq<ArgumentCondition>,
    readOnly: Option<bool>,
    destructive: Option<bool>,
    idempotent: Option<bool>,
    openWorld: Option<bool>)
  {
    predicate IsEmpty() {
      arguments == [] && readOnly.None? && destructive.None? && idempotent.None? && openWorld.None?
    }
  }

  datatype Rule = Rule(
    tool: string,
    action: Action,
    condition: RuleCondition,
    reason: Option<string>,
    upstream: Option<string>)

  datatype Policy = Policy(rules: seq<Rule>, default: Action, defaultReason: Option<string>)

  datatype Source = ByRule | ByDefault

  datatype Decision = Decision(
    action: Action,
    source: Source,
    reason: Option<string>,
    ruleIndex: Option<nat>)

  // ---- matching one rule -----------------------------------------------------

  /** `_argument_matches`: a missing argument, an explicit null and a container never match. */
  predicate ArgumentMatches(arguments: Arguments, condition: ArgumentCondition) {
    var value := Lookup(Obj(arguments), Split(condition.path, '.'));
    value != Null
    && var rendered := CanonicalValue(value);
       rendered.Some? && MatchPath(condition.pattern, rendered.value)
  }

  /** One hint: unasked, or stated with the value asked for. */
  predicate HintMatches(expected: Option<bool>, actual: Option<bool>) {
    expected.None? || actual == expected
  }

  predicate AnnotationsMatch(view: AnnotationView, condition: RuleCondition) {
    && HintMatches(condition.readOnly, view.readOnly)
    && HintMatches(condition.destructive, view.destructive)
    && HintMatches(condition.idempotent, view.idempotent)
    && HintMatches(condition.openWorld, view.openWorld)
  }

  predicate RuleMatches(rule: Rule, request: PolicyRequest) {
    if rule.upstream.Some? && rule.upstream.value != request.upstream then false
    else if !MatchTool(rule.tool, request.tool) then false
    else if rule.condition.IsEmpty() then true
    else if !AnnotationsMatch(request.annotations, rule.condition) then false
    else forall condition <- rule.condition.arguments :: ArgumentMatches(request.arguments, condition)
  }

  // ---- first match wins ---------------------------------------------------------

  /** Index of the first rule that matches. */
  function FirstMatch(rules: seq<Rule>, request: PolicyRequest): Option<nat>
    decreases |rules|
  {
    if rules == [] then None
    else if RuleMatches(rules[0], request) then Some(0)
    else match FirstMatch(rules[1..], request)
      case None => None
      case Some(i) => Some(i + 1)
  }

  lemma {:induction false} FirstMatchIsLeast(rules: seq<Rule>, request: PolicyRequest)
    ensures var found := FirstMatch(rules, request);
            match found
            case None => forall i | 0 <= i < |rules| :: !RuleMatches(rules[i], request)
            case Some(k) => k < |rules| && RuleMatches(rules[k], request)
                            && forall i | 0 <= i < k :: !RuleMatches(rules[i], request)
    decreases |rules|
  {
    if rules != [] && !RuleMatches(rules[0], request) {
      FirstMatchIsLeast(rules[1..], request);
      forall i | 0 < i < |rules| ensures rules[i] == rules[1..][i - 1] {}
    }
  }

  function Decide(request: PolicyRequest, policy: Policy): (d: Decision)
    ensures d.source == ByDefault <==> d.ruleIndex.None?
  {
    match FirstMatch(policy.rules, request)
    case None => Decision(policy.default, ByDefault, policy.defaultReason, None)
    case Some(i) =>
      FirstMatchIsLeast(policy.rules, request);
      Decision(policy.rules[i].action, ByRule, policy.rules[i].reason, Some(i))
  }

  /** `evaluate`: the early-return loop. */
  method Evaluate(request: PolicyRequest, policy: Policy) returns (d: Decision)
    ensures d == Decide(request, policy)
    ensures match d.ruleIndex
            case Some(k) =>
              && k < |policy.rules| && RuleMatches(policy.rules[k], request)
              && (forall i | 0 <= i < k :: !RuleMatches(policy.rules[i], request))
              && d.action == policy.rules[k].action && d.reason == policy.rules[k].reason
            case None =>
              && (forall i | 0 <= i < |policy.rules| :: !RuleMatches(policy.rules[i], request))
              && d.action == policy.default && d.reason == policy.defaultReason
  {
    FirstMatchIsLeast(policy.rules, request);
    for index := 0 to |policy.rules|
      invariant forall i | 0 <= i < index :: !RuleMatches(policy.rules[i], request)
    {
      var rule := policy.rules[index];
      if RuleMatches(rule, request) {
        return Decision(rule.action, ByRule, rule.reason, Some(index));
      }
    }
    d := Decision(policy.default, ByDefault, policy.defaultReason, None);
  }

  // ---- first match as a rewrite theory ----------------------------------------------

  /** A rule list in two parts decides as its first part, or else as its second with the index shifted. */
  lemma ConcatenatedRules(front: seq<Rule>, back: seq<Rule>, request: PolicyRequest)
    ensures FirstMatch(front + back, request) ==
              if FirstMatch(front, request).Some? then FirstMatch(front, request)
              else match FirstMatch(back, request)
                case None => None
                case Some(i) => Some(|front| + i)
  {
    var whole := front + back;
    FirstMatchIsLeast(front, request);
    FirstMatchIsLeast(back, request);
    FirstMatchIsLeast(whole, request);
    assert forall i | 0 <= i < |front| :: whole[i] == front[i];
    assert forall i | 0 <= i < |back| :: whole[|front| + i] == back[i];
  }

  /** Deleting a rule leaves the outcome of every request an earlier rule takes from it. */
  lemma DeletedRule(policy: Policy, j: nat, request: PolicyRequest)
    requires j < |policy.rules|
    requires RuleMatches(policy.rules[j], request) ==>
               exists i | 0 <= i < j :: RuleMatches(policy.rules[i], request)
    ensures SameOutcome(Decide(request, policy),
                        Decide(request, policy.(rules := policy.rules[..j] + policy.rules[j + 1..])))
  {
    var rule, front, back := policy.rules[j], policy.rules[..j], policy.rules[j + 1..];
    assert policy.rules == front + ([rule] + back);
    ConcatenatedRules(front, [rule] + back, request);
    ConcatenatedRules(front, back, request);
    FirstMatchIsLeast(front, request);
    if FirstMatch(front, request).None? {
      assert forall i | 0 <= i < j :: front[i] == policy.rules[i];
      PassedOver(rule, back, request);
      FirstMatchIsLeast(back, request);
    }
  }

  /** A rule that does not match only shifts the index of the one that does. */
  lemma PassedOver(rule: Rule, back: seq<Rule>, request: PolicyRequest)
    requires !RuleMatches(rule, request)
    ensures FirstMatch([rule] + back, request) ==
              match FirstMatch(back, request)
              case None => None
              case Some(i) => Some(i + 1)
  {
    assert ([rule] + back)[1..] == back;
  }

  /** Two decisions a caller cannot tell apart: the matched index is bookkeeping. */
  predicate SameOutcome(a: Decision, b: Decision) {
    a.action == b.action && a.reason == b.reason && a.source == b.source
  }

  /** Reordering or repeating a rule's argument conditions changes no decision. */
  lemma ReorderedConditions(policy: Policy, j: nat, arguments: seq<ArgumentCondition>, request: PolicyRequest)
    requires j < |policy.rules|
    requires forall c :: c in arguments <==> c in policy.rules[j].condition.arguments
    ensures var rule := policy.rules[j].(condition := policy.rules[j].condition.(arguments := arguments));
            Decide(request, policy.(rules := policy.rules[j := rule])) == Decide(request, policy)
  {
    var old' := policy.rules[j];
    var rule := old'.(condition := old'.condition.(arguments := arguments));
    if arguments != [] { assert arguments[0] in arguments; }
    if old'.condition.arguments != [] { assert old'.condition.arguments[0] in old'.condition.arguments; }
    assert RuleMatches(rule, request) <==> RuleMatches(old', request);
    var reordered := policy.rules[j := rule];
    assert forall i | 0 <= i < |reordered| ::
             RuleMatches(reordered[i], request) <==> RuleMatches(policy.rules[i], request);
    FirstMatchIsLeast(policy.rules, request);
    FirstMatchIsLeast(reordered, request);
  }

  // ---- hint monotonicity -----------------------------------------------------------------

  predicate Refines(before: Option<bool>, after: Option<bool>) { before.None? || after == before }

  /** Every hint stated before is stated the same after. */
  predicate StatesMore(before: AnnotationView, after: AnnotationView) {
    && Refines(before.readOnly, after.readOnly)
    && Refines(before.destructive, after.destructive)
    && Refines(before.idempotent, after.idempotent)
    && Refines(before.openWorld, after.openWorld)
  }

  /** Stating more hints moves the decision to an equal or earlier rule, or from the default to a rule. */
  lemma StatingHintsIsMonotone(request: PolicyRequest, after: AnnotationView, policy: Policy)
    requires StatesMore(request.annotations, after)
    ensures forall rule <- policy.rules ::
              RuleMatches(rule, request) ==> RuleMatches(rule, request.(annotations := after))
    ensures var before, now := Decide(request, policy), Decide(request.(annotations := after), policy);
            before.ruleIndex.Some? ==> now.ruleIndex.Some? && now.ruleIndex.value <= before.ruleIndex.value
  {
    FirstMatchIsLeast(policy.rules, request);
    FirstMatchIsLeast(policy.rules, request.(annotations := after));
  }

  /** An upstream that states no hint reaches only the rules that ask for none. */
  lemma UnstatedHintsNeverMatch(rule: Rule, request: PolicyRequest)
    requires request.annotations == AnnotationView(None, None, None, None)
    requires RuleMatches(rule, request)
    ensures rule.condition == RuleCondition(rule.condition.arguments, None, None, None, None)
  {
  }
}
