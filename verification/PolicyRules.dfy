/** broker/policy.py: the meaning of a caller policy, default deny. */
module PolicyRules {
  import opened Wrappers

  datatype Effect = Allow | Review | Deny

  /** Effects are stored as text, so that an unrecognised one is representable. */
  function Text(effect: Effect): string {
    match effect
    case Allow => "allow"
    case Review => "review"
    case Deny => "deny"
  }

  type Rulebook = map<string, map<string, string>>

  /** A stored policy. Each of the three keys may be absent from the stored object. */
  datatype Policy = Policy(
    tools: Option<Rulebook>,
    enabled: Option<seq<string>>,
    disabled: Option<map<string, seq<string>>>)

  const EMPTY_POLICY := Policy(None, None, None)

  function Rules(policy: Policy, tool: string): map<string, string> {
    var tools := policy.tools.GetOr(map[]);
    if tool in tools then tools[tool] else map[]
  }

  function Disabled(policy: Policy, tool: string): seq<string> {
    var disabled := policy.disabled.GetOr(map[]);
    if tool in disabled then disabled[tool] else []
  }

  /** Settings written by the editor carry both keys; enablement is then authoritative. */
  predicate Managed(policy: Policy) {
    policy.disabled.Some? && policy.enabled.Some?
  }

  function Norm(raw: Option<string>): Effect {
    if raw == Some(Text(Allow)) then Allow
    else if raw == Some(Text(Review)) then Review
    else Deny
  }

  function Decide(policy: Policy, tool: string, op: string): Effect {
    if Managed(policy) && tool !in policy.enabled.value then Deny
    else if op in Disabled(policy, tool) then Deny
    else
      var rules := Rules(policy, tool);
      Norm(if op in rules then Some(rules[op]) else None)
  }

  /** The tools a caller may use: as listed, and for legacy policies also every tool that carries rules. */
  function EnabledTools(policy: Policy): set<string> {
    var listed := set tool | tool in policy.enabled.GetOr([]);
    if Managed(policy) then listed else listed + policy.tools.GetOr(map[]).Keys
  }

  /** A tool is enabled if it is listed, or if it carries rules and enablement is not managed. */
  lemma EnabledExactly(policy: Policy, tool: string)
    ensures tool in EnabledTools(policy) <==>
              || (policy.enabled.Some? && tool in policy.enabled.value)
              || (&& (policy.enabled == None || policy.disabled == None)
                  && policy.tools.Some? && tool in policy.tools.value)
  {
  }

  function RuleAt(tools: Rulebook, tool: string, op: string): Option<string> {
    if tool in tools && op in tools[tool] then Some(tools[tool][op]) else None
  }

  /** Tool ids in the catalog hold no dot; the forms of the editor rely on that. */
  predicate Undotted(tools: Rulebook) {
    forall tool | tool in tools :: '.' !in tool
  }

  /** A stored rule is in force: the operation carries that text, is not excluded, and its tool is enabled wherever
      enablement is authoritative. */
  predicate Carries(policy: Policy, tool: string, op: string, text: string) {
    && policy.tools.Some? && tool in policy.tools.value && op in policy.tools.value[tool]
    && policy.tools.value[tool][op] == text
    && (policy.disabled.Some? && tool in policy.disabled.value ==> op !in policy.disabled.value[tool])
    && (policy.disabled.Some? && policy.enabled.Some? ==> tool in policy.enabled.value)
  }

  /** Default deny: only a rule in force that says "allow" or "review" gives anything. */
  lemma DecidesSo(policy: Policy, tool: string, op: string)
    ensures Decide(policy, tool, op) == Allow <==> Carries(policy, tool, op, "allow")
    ensures Decide(policy, tool, op) == Review <==> Carries(policy, tool, op, "review")
  {
  }

  /** What a tool's rules and exclusions say, whether or not the tool is enabled. */
  function Ruling(policy: Policy, tool: string, op: string): Effect {
    if op in Disabled(policy, tool) then Deny else Norm(RuleAt(policy.tools.GetOr(map[]), tool, op))
  }

  lemma DecideRuling(policy: Policy, tool: string, op: string)
    ensures Decide(policy, tool, op)
         == if Managed(policy) && tool !in policy.enabled.value then Deny else Ruling(policy, tool, op)
  {
  }
}
