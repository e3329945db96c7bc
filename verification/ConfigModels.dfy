/** The parts of the configuration schema the gate rests on (config/models.py). */
module ConfigModels {
  import opened Wrappers
  import opened Engine

  const SEPARATOR := "__"

  /** The separator starts at index `i`. */
  predicate SeparatorAt(s: string, i: nat) { i + 1 < |s| && s[i] == '_' && s[i + 1] == '_' }

  /** The separator occurs in the text. */
  predicate HasSeparator(s: string) { exists i | 0 <= i < |s| :: SeparatorAt(s, i) }

  /** `_validate_name`; `alnum` is Python's `str.isalnum` on one character. */
  predicate ValidName(name: string, alnum: char -> bool) {
    && name != ""
    && !HasSeparator(name)
    && forall c <- name :: alnum(c) || c == '-' || c == '_'
  }

  datatype RuleConfig = RuleConfig(
    tool: string,
    action: Action,
    args: map<string, string>,
    readOnlyHint: Option<bool>,
    destructiveHint: Option<bool>,
    idempotentHint: Option<bool>,
    openWorldHint: Option<bool>,
    reason: Option<string>,
    upstream: Option<string>)

  datatype PolicyConfig = PolicyConfig(default: Action, defaultReason: Option<string>, rules: seq<RuleConfig>)

  datatype ConfigError = DuplicateUpstream(name: string) | UnknownUpstream(rule: nat, name: string)

  ghost predicate Distinct(names: seq<string>) { forall i, j | 0 <= i < j < |names| :: names[i] != names[j] }

  ghost predicate TargetsKnown(rules: seq<RuleConfig>, names: seq<string>) {
    forall rule <- rules :: rule.upstream.None? || rule.upstream.value in names
  }

  /** `_validate_upstreams`: names are distinct, and every rule's upstream exists. Duplicates are reported first. */
  method ValidateUpstreams(names: seq<string>, rules: seq<RuleConfig>) returns (r: Result<set<string>, ConfigError>)
    ensures r.Ok? <==> Distinct(names) && TargetsKnown(rules, names)
    ensures r.Ok? ==> forall name :: name in r.value <==> name in names
    ensures r.Err? ==>
              match r.error
              case DuplicateUpstream(name) =>
                exists j | 0 <= j < |names| :: names[j] == name && name in names[..j] && Distinct(names[..j])
              case UnknownUpstream(k, name) =>
                && Distinct(names) && k < |rules| && rules[k].upstream == Some(name) && name !in names
                && TargetsKnown(rules[..k], names)
  {
    var seen: set<string> := {};
    for i := 0 to |names|
      invariant Distinct(names[..i])
      invariant forall name :: name in seen <==> name in names[..i]
    {
      if names[i] in seen {
        assert names[i] in names[..i];
        return Err(DuplicateUpstream(names[i]));
      }
      assert names[..i + 1] == names[..i] + [names[i]];
      seen := seen + {names[i]};
    }
    assert names[..|names|] == names;
    for k := 0 to |rules|
      invariant TargetsKnown(rules[..k], names)
    {
      if rules[k].upstream.Some? && rules[k].upstream.value !in seen {
        assert rules[k] in rules;
        return Err(UnknownUpstream(k, rules[k].upstream.value));
      }
      assert rules[..k + 1] == rules[..k] + [rules[k]];
    }
    assert rules[..|rules|] == rules;
    r := Ok(seen);
  }

  /** The conditions of a rule, in whatever order `sorted(self.args.items())` lists them. */
  ghost predicate ListsArgs(conditions: seq<ArgumentCondition>, args: map<string, string>) {
    forall c :: c in conditions <==> c.path in args && args[c.path] == c.pattern
  }

  /** `to_rule`, given the order of its argument conditions. */
  function ToRule(config: RuleConfig, conditions: seq<ArgumentCondition>): Rule {
    Rule(config.tool, config.action,
         RuleCondition(conditions, config.readOnlyHint, config.destructiveHint,
                       config.idempotentHint, config.openWorldHint),
         config.reason, config.upstream)
  }

  ghost predicate Builds(policy: Policy, config: PolicyConfig) {
    && policy.default == config.default && policy.defaultReason == config.defaultReason
    && |policy.rules| == |config.rules|
    && forall i | 0 <= i < |policy.rules| ::
         && ListsArgs(policy.rules[i].condition.arguments, config.rules[i].args)
         && policy.rules[i] == ToRule(config.rules[i], policy.rules[i].condition.arguments)
  }

  lemma SameConditions(config: RuleConfig, ca: seq<ArgumentCondition>, cb: seq<ArgumentCondition>,
                       request: PolicyRequest)
    requires ListsArgs(ca, config.args) && ListsArgs(cb, config.args)
    ensures RuleMatches(ToRule(config, ca), request) <==> RuleMatches(ToRule(config, cb), request)
  {
    assert forall c :: c in ca <==> c in cb;
    if ca != [] { assert ca[0] in cb; }
    if cb != [] { assert cb[0] in ca; }
  }

  /** The order in which `build_policy` lists argument conditions decides nothing. */
  lemma BuildOrderIsImmaterial(config: PolicyConfig, a: Policy, b: Policy, request: PolicyRequest)
    requires Builds(a, config) && Builds(b, config)
    ensures Decide(request, a) == Decide(request, b)
  {
    forall i | 0 <= i < |a.rules| ensures RuleMatches(a.rules[i], request) <==> RuleMatches(b.rules[i], request) {
      var ca, cb := a.rules[i].condition.arguments, b.rules[i].condition.arguments;
      SameConditions(config.rules[i], ca, cb, request);
    }
    FirstMatchIsLeast(a.rules, request);
    FirstMatchIsLeast(b.rules, request);
  }
}
