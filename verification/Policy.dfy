/** The ALLOW / ASK / DENY policy (orchestrator/app/policy.py), used when a capability is issued
    and again when an agent executes. */
module Policy {
  import opened Text
  import opened Schemas

  datatype Decision = Allow | Ask | Deny

  datatype PolicyDecision = PolicyDecision(
    decision: Decision,
    ruleId: string,
    reason: string,
    requiredControls: seq<string>)

  const AGENT: string := "ai_agent"

  predicate Destructive(act: string) { act in {"delete", "destroy", "drop", "purge"} }
  predicate ReadOnly(act: string) { act in {"read", "inspect", "status"} }
  predicate Writing(act: string) { act in {"deploy", "write", "promote"} }
  predicate Production(env: string) { env in {"prod", "production"} }
  predicate NonProduction(env: string) { env in {"dev", "development", "staging", "stage"} }

  function EvaluatePolicy(actorType: string, action: string, environment: string): PolicyDecision {
    var actor := Lower(Trim(Python, actorType));
    var act := Lower(Trim(Python, action));
    var env := Lower(Trim(Python, environment));
    if Destructive(act) then
      PolicyDecision(Deny, "deny-destructive-action", "파괴적 작업은 자율 Agent에게 위임할 수 없습니다.", ["manual-operator"])
    else if ReadOnly(act) then
      PolicyDecision(Allow, "allow-readonly", "읽기 전용 작업은 배포 상태를 변경하지 않습니다.", [])
    else if actor == AGENT && Production(env) && Writing(act) then
      PolicyDecision(Ask, "ask-agent-production-write", "AI Agent의 운영 환경 쓰기 작업에는 명시적인 사람 승인이 필요합니다.",
                     ["verified-pipeline", "human-approval", "scoped-capability"])
    else if actor == AGENT && NonProduction(env) && Writing(act) then
      PolicyDecision(Allow, "allow-agent-nonprod-write",
                     "비운영 환경의 Agent 쓰기 작업은 immutable release와 scoped capability가 있으면 허용됩니다.",
                     ["verified-pipeline", "scoped-capability"])
    else
      PolicyDecision(Ask, "ask-default-mutating-action", "알 수 없거나 상태를 변경하는 작업은 사람 검토가 필요합니다.", ["human-approval"])
  }

  lemma AgentActor()
    ensures Lower(Trim(Python, AGENT)) == AGENT
  {
    TrimFixpoint(Python, AGENT);
    assert Lower(AGENT) == AGENT;
  }

  /** On validated agent requests the three answers partition: DENY is exactly the destructive
      actions, ALLOW exactly reading anywhere or writing outside production, and an ALLOW without
      reading is confined to the four named environments. */
  lemma PolicyTable(action: string, environment: string)
    requires IsAction(action) && IsEnvironment(environment)
    ensures var d := EvaluatePolicy(AGENT, action, environment).decision;
            && (d == Deny <==> Destructive(action))
            && (d == Allow <==> ReadOnly(action) || (Writing(action) && NonProduction(environment)))
            && (Writing(action) && Production(environment) ==> d == Ask)
  {
    AgentActor();
    LowerSlug(action);
    LowerSlug(environment);
    hide Lower;
    hide Trim;
    hide IsAction;
    hide IsEnvironment;
    WordsDisjoint(action);
    WordsDisjoint(environment);
  }

  /** Which rule answers a validated agent request: one each, the destructive first. */
  lemma PolicyRules(action: string, environment: string)
    requires IsAction(action) && IsEnvironment(environment)
    ensures var r := EvaluatePolicy(AGENT, action, environment).ruleId;
            && (r == "deny-destructive-action" <==> Destructive(action))
            && (r == "allow-readonly" <==> ReadOnly(action))
            && (r == "ask-agent-production-write" <==> Writing(action) && Production(environment))
            && (r == "allow-agent-nonprod-write" <==> Writing(action) && NonProduction(environment))
            && (r == "ask-default-mutating-action" <==>
                  && !Destructive(action) && !ReadOnly(action)
                  && !(Writing(action) && (Production(environment) || NonProduction(environment))))
  {
    AgentActor();
    LowerSlug(action);
    LowerSlug(environment);
    hide Lower;
    hide Trim;
    hide IsAction;
    hide IsEnvironment;
    WordsDisjoint(action);
    WordsDisjoint(environment);
    hide Destructive;
    hide ReadOnly;
    hide Writing;
    hide Production;
    hide NonProduction;
  }

  /** Anyone but an agent is asked for whatever is neither destructive nor reading. */
  lemma PolicyForOthers(actorType: string, action: string, environment: string)
    requires Lower(Trim(Python, actorType)) != AGENT && IsAction(action)
    ensures var d := EvaluatePolicy(actorType, action, environment).decision;
            && (d == Deny <==> Destructive(action)) && (d == Allow <==> ReadOnly(action))
  {
    LowerSlug(action);
    WordsDisjoint(action);
    hide Destructive;
    hide ReadOnly;
  }

  /** The word lists do not overlap. */
  lemma WordsDisjoint(w: string)
    ensures Destructive(w) ==> !ReadOnly(w) && !Writing(w)
    ensures ReadOnly(w) ==> !Writing(w)
    ensures Production(w) ==> !NonProduction(w)
  {
  }

  /** A deployment is allowed without approval only outside production. */
  lemma AllowedDeployIsNonProduction(environment: string)
    requires IsEnvironment(environment)
    ensures EvaluatePolicy(AGENT, "deploy", environment).decision == Allow <==> NonProduction(environment)
  {
    PolicyTable("deploy", environment);
  }
}
