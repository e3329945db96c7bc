/** What a rule asks of a call, and what a configured policy decides, in the configuration's own terms. */
module RuleLaws {
  import opened Wrappers
  import opened Glob
  import opened Json
  import opened Redaction
  import opened Engine
  import opened ConfigModels
  import Disclosure

  /** The pattern takes the text, or the text but for a final newline. */
  predicate Takes(pattern: string, separators: bool, text: string) {
    GlobMatches(pattern, separators, text)
    || (text != "" && text[|text| - 1] == '\n' && GlobMatches(pattern, separators, text[..|text| - 1]))
  }

  /** A place holds a scalar other than null, and this is how it is written. */
  predicate WrittenAs(node: Option<Json>, text: string) {
    match node
    case Some(Str(s)) => text == s
    case Some(Num(token)) => text == token
    case Some(Bool(b)) => (b && text == "true") || (!b && text == "false")
    case _ => false
  }

  /** The text at a dotted path of the arguments is one the pattern takes, separators counting. */
  ghost predicate ArgumentTaken(arguments: Arguments, path: string, pattern: string) {
    exists text :: WrittenAs(At(Obj(arguments), Disclosure.Address(path)), text) && Takes(pattern, true, text)
  }

  lemma ArgumentMatchesExactly(arguments: Arguments, condition: ArgumentCondition)
    ensures ArgumentMatches(arguments, condition) <==> ArgumentTaken(arguments, condition.path, condition.pattern)
  {
    var segments := Split(condition.path, '.');
    Disclosure.LookupIsAt(Obj(arguments), segments);
    var node := At(Obj(arguments), Disclosure.Address(condition.path));
    match node
    case Some(Str(s)) => assert WrittenAs(node, s);
    case Some(Num(token)) => assert WrittenAs(node, token);
    case Some(Bool(b)) => assert WrittenAs(node, if b then "true" else "false");
    case _ =>
  }

  /**
   * A rule matches a call exactly if all it asks for is met: the upstream if it names one, the tool's name, every
   * hint it asks for, stated with that value, and at the path of every argument condition a scalar it takes.
   */
  lemma RuleMatchesExactly(rule: Rule, request: PolicyRequest)
    ensures RuleMatches(rule, request) <==>
              && (rule.upstream.Some? ==> request.upstream == rule.upstream.value)
              && Takes(rule.tool, false, request.tool)
              && (rule.condition.readOnly.Some? ==> request.annotations.readOnly == rule.condition.readOnly)
              && (rule.condition.destructive.Some? ==> request.annotations.destructive == rule.condition.destructive)
              && (rule.condition.idempotent.Some? ==> request.annotations.idempotent == rule.condition.idempotent)
              && (rule.condition.openWorld.Some? ==> request.annotations.openWorld == rule.condition.openWorld)
              && forall condition <- rule.condition.arguments ::
                   ArgumentTaken(request.arguments, condition.path, condition.pattern)
  {
    forall condition <- rule.condition.arguments {
      ArgumentMatchesExactly(request.arguments, condition);
    }
  }

  function WithArguments(rule: Rule, arguments: seq<ArgumentCondition>): Rule {
    rule.(condition := rule.condition.(arguments := arguments))
  }

  /** A rule with two lists of argument conditions joined matches exactly what it matches with each alone. */
  lemma ConditionsJoin(rule: Rule, front: seq<ArgumentCondition>, back: seq<ArgumentCondition>, request: PolicyRequest)
    ensures RuleMatches(WithArguments(rule, front + back), request) <==>
              RuleMatches(WithArguments(rule, front), request) && RuleMatches(WithArguments(rule, back), request)
  {
    RuleMatchesExactly(WithArguments(rule, front + back), request);
    RuleMatchesExactly(WithArguments(rule, front), request);
    RuleMatchesExactly(WithArguments(rule, back), request);
    assert forall condition :: condition in front + back <==> condition in front || condition in back;
  }

  // ---- from the configuration to the decision -------------------------------------------

  /** What a configured rule asks of a call. */
  ghost predicate Asks(config: RuleConfig, request: PolicyRequest) {
    && (config.upstream.Some? ==> request.upstream == config.upstream.value)
    && Takes(config.tool, false, request.tool)
    && (config.readOnlyHint.Some? ==> request.annotations.readOnly == config.readOnlyHint)
    && (config.destructiveHint.Some? ==> request.annotations.destructive == config.destructiveHint)
    && (config.idempotentHint.Some? ==> request.annotations.idempotent == config.idempotentHint)
    && (config.openWorldHint.Some? ==> request.annotations.openWorld == config.openWorldHint)
    && forall path <- config.args :: ArgumentTaken(request.arguments, path, config.args[path])
  }

  /** The rule built from a configured one matches exactly the calls that are as configured. */
  lemma BuiltRuleAsks(config: RuleConfig, conditions: seq<ArgumentCondition>, request: PolicyRequest)
    requires ListsArgs(conditions, config.args)
    ensures RuleMatches(ToRule(config, conditions), request) <==> Asks(config, request)
  {
    RuleMatchesExactly(ToRule(config, conditions), request);
    if RuleMatches(ToRule(config, conditions), request) {
      forall path <- config.args ensures ArgumentTaken(request.arguments, path, config.args[path]) {
        assert ArgumentCondition(path, config.args[path]) in conditions;
      }
    }
  }

  /** The first configured rule whose demands a call meets decides it, with its action and reason; or the default. */
  lemma ConfiguredDecision(config: PolicyConfig, policy: Policy, request: PolicyRequest)
    requires Builds(policy, config)
    ensures var d := Decide(request, policy);
            match d.ruleIndex
            case Some(k) =>
              && k < |config.rules| && Asks(config.rules[k], request)
              && (forall i | 0 <= i < k :: !Asks(config.rules[i], request))
              && d.action == config.rules[k].action && d.reason == config.rules[k].reason && d.source == ByRule
            case None =>
              && (forall rule <- config.rules :: !Asks(rule, request))
              && d.action == config.default && d.reason == config.defaultReason && d.source == ByDefault
  {
    forall i | 0 <= i < |config.rules|
      ensures RuleMatches(policy.rules[i], request) <==> Asks(config.rules[i], request)
    {
      BuiltRuleAsks(config.rules[i], policy.rules[i].condition.arguments, request);
    }
    FirstMatchIsLeast(policy.rules, request);
  }
}
