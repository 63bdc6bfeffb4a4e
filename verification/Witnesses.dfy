/** Runs from the start that reach what the bounds allow: the inputs are ones the service takes. */
module Witnesses {
  import opened Text
  import opened Identities
  import opened Capability
  import opened Ledgers
  import opened Workflow
  import opened Moves
  import opened Invariants
  import opened History
  import opened Delegation
  import opened Terminal
  import Boundary
  import Policy
  import Schemas

  /** A release, a pipeline and a delivery body that reports the pipeline's success for it. */
  ghost predicate Releasable(cfg: Config, v: Identity, pipelineId: string, body: string) {
    && Schemas.ValidIdentity(v) && Schemas.ParseText(pipelineId, 1, 80) == Some(pipelineId)
    && |body| <= cfg.maxBody && cfg.parse(body) == Attributes(pipelineId, SUCCESS, v.commitSha)
  }

  function ChangeOf(action: string): Change {
    Change("CR-1001", "scheduled change", Policy.AGENT, "release-agent-01", "operator", action)
  }

  /** An agent's epoch in DRAFT, verified, its release observed as its own target. */
  ghost predicate Ready(cfg: Config, s: State, id: string, v: Identity, action: string) {
    && id in s.ledgers
    && var l := s.ledgers[id];
    && l.identity == v && l.state == Draft && l.approval == None && l.receipts == []
    && l.change == Some(ChangeOf(action)) && l.pipelineStatus == SUCCESS
    && LiveOf(s, v) == Some(v) && (cfg.mode == GoBoundary ==> Boundary.Lookup(s.store, v) == Some(v))
    && s.jtis == {} && s.clock == 0
  }

  lemma Created(cfg: Config, id: string, v: Identity, pipelineId: string)
    requires Schemas.ValidIdentity(v) && Schemas.ParseText(pipelineId, 1, 80) == Some(pipelineId)
    ensures Next(cfg, START, CreateEpoch(id, v, pipelineId, "operator"))
            == START.(ledgers := map[id := NewLedger(cfg.sha, v, pipelineId, "operator")])
  {
    Schemas.ValidExactly(v);
    hide Schemas.ValidIdentity;
    hide Schemas.ParseIdentity;
    hide Schemas.ParseText;
    hide NewLedger;
  }

  lemma Requested(cfg: Config, s: State, id: string, action: string)
    requires id in s.ledgers && s.ledgers[id].change == None && Schemas.IsAction(action)
    ensures Next(cfg, s, RequestChange(id, ChangeOf(action)))
            == SetLedger(s, id, AddChange(s.ledgers[id], ChangeOf(action)))
  {
    hide Schemas.IsAction;
    hide AddChange;
  }

  /** Create, request the change, report the pipeline, observe the release. */
  lemma Prepare(cfg: Config, id: string, v: Identity, pipelineId: string, body: string, action: string)
      returns (rs: seq<Request>)
    requires Releasable(cfg, v, pipelineId, body) && Schemas.IsAction(action)
    ensures Ready(cfg, Run(cfg, START, rs), id, v, action) && forall r :: r in rs ==> !r.Execute?
  {
    hide Run;
    hide Next;
    hide Schemas.ValidIdentity;
    hide Schemas.ParseText;
    hide Schemas.IsAction;
    hide Fingerprint;
    hide Boundary.Lookup;
    hide LiveOf;
    var create, change := CreateEpoch(id, v, pipelineId, "operator"), RequestChange(id, ChangeOf(action));
    var hook, observe := Webhook(body, PIPELINE_HOOK), Observe(v, true);
    Created(cfg, id, v, pipelineId);
    var s1 := Next(cfg, START, create);
    Requested(cfg, s1, id, action);
    var s2 := Next(cfg, s1, change);
    HookVerifies(cfg, s2, id, body);
    var s3 := Next(cfg, s2, hook);
    ObserveRelease(cfg, s3, v);
    RunTwo(cfg, START, create, change);
    RunTwo(cfg, s2, hook, observe);
    RunConcat(cfg, START, [create, change], [hook, observe]);
    rs := [create, change] + [hook, observe];
  }

  /** From a ready state an agent whose change the policy allows gets its receipt at once. */
  lemma ExecuteReady(cfg: Config, rs: seq<Request>, id: string, v: Identity, action: string) returns (all: seq<Request>)
    requires Lawful(cfg.jws) && Ready(cfg, Run(cfg, START, rs), id, v, action) && TextsApart(cfg, v)
    requires Policy.EvaluatePolicy(Policy.AGENT, action, v.environment).decision == Policy.Allow
    requires cfg.mode == GoBoundary ==> action == "deploy" && CommonAlphabet(v)
    ensures rs <= all && id in Run(cfg, START, all).ledgers
    ensures SameSurroundings(Run(cfg, START, rs), Run(cfg, START, all), id)
    ensures |Run(cfg, START, all).ledgers[id].receipts| == 1
  {
    hide Run;
    hide Lawful;
    hide CommonAlphabet;
    hide NoCollision;
    hide CanonicalText;
    hide Boundary.Lookup;
    hide LiveOf;
    hide Policy.EvaluatePolicy;
    hide IssueThenExecute;
    hide Inv;
    hide GrantIds;
    hide Sign;
    hide SameSurroundings;
    var s := Run(cfg, START, rs);
    RunKeepsInv(cfg, rs);
    RunKeepsGrantIds(cfg, rs);
    var next := IssueThenExecute(cfg, s, id, "operator", 300, "grant-1", "attempt-1", 0);
    DelegationExactly(cfg, s, id, "operator", 300, "grant-1", "attempt-1", 0);
    assert WillReceive(cfg, s, id, 300, "grant-1", "attempt-1", 0);
    RunConcat(cfg, START, rs, next);
    all := rs + next;
  }

  /** The bound of two receipts is reached by the service: for every release of a non-production
      environment and every body that reports its pipeline, some run from the start executes the
      epoch by policy, approves it, which does not look at the state, and executes it again. */
  lemma TwoReceipts(cfg: Config, id: string, v: Identity, pipelineId: string, body: string)
    requires Lawful(cfg.jws) && Releasable(cfg, v, pipelineId, body) && Policy.NonProduction(v.environment)
    requires cfg.mode == GoBoundary ==> CommonField(v.project)
    requires TextsApart(cfg, v)
    ensures exists rs :: id in Run(cfg, START, rs).ledgers && |Run(cfg, START, rs).ledgers[id].receipts| == 2
  {
    hide Run;
    hide Lawful;
    hide TextsApart;
    hide Ready;
    DeployIsAction();
    var rs := Prepare(cfg, id, v, pipelineId, body, "deploy");
    Schemas.ValidCommonAlphabet(v);
    Policy.AllowedDeployIsNonProduction(v.environment);
    hide Schemas.ValidIdentity;
    hide CommonAlphabet;
    hide Policy.EvaluatePolicy;
    hide Policy.NonProduction;
    var all := ExecuteReady(cfg, rs, id, v, "deploy");
    StillVerified(cfg, Run(cfg, START, rs), Run(cfg, START, all), id, v, "deploy");
    hide SameSurroundings;
    var again := ObserveApproveExecute(cfg, Run(cfg, START, all), id);
    RunConcat(cfg, START, all, again);
    assert |Run(cfg, START, all + again).ledgers[id].receipts| == 2;
  }

  lemma StillVerified(cfg: Config, s: State, s': State, id: string, v: Identity, action: string)
    requires Ready(cfg, s, id, v, action) && SameSurroundings(s, s', id)
    ensures s'.ledgers[id].approval == None && s'.ledgers[id].pipelineStatus == SUCCESS && s'.ledgers[id].identity == v
    ensures s'.ledgers[id].change == Some(ChangeOf(action))
  {
    hide Boundary.Lookup;
    hide LiveOf;
  }

  lemma DeployIsAction()
    ensures Schemas.IsAction("deploy") && Schemas.IsAction("inspect")
  {
  }

  lemma ReadingAllowed(environment: string)
    requires Schemas.IsEnvironment(environment)
    ensures Policy.EvaluatePolicy(Policy.AGENT, "inspect", environment).decision == Policy.Allow
  {
    DeployIsAction();
    Policy.PolicyTable("inspect", environment);
  }

  /** In process the receipts without an approval are not confined to deployments outside
      production: for every release, of whatever environment, some run from the start ends with a
      receipt that no approval and no such deployment stood behind when it was written. */
  lemma LocalReadsWithoutApproval(cfg: Config, id: string, v: Identity, pipelineId: string, body: string)
    requires cfg.mode == InProcess && Lawful(cfg.jws) && Releasable(cfg, v, pipelineId, body)
    ensures exists rs ::
              && id in Run(cfg, START, rs).ledgers && |Run(cfg, START, rs).ledgers[id].receipts| == 1
              && forall i: nat :: Wrote(cfg, rs, i, id, 0) ==>
                   var l := Run(cfg, START, rs[..i]).ledgers[id]; l.approval == None && !NonProductionDeploy(l)
  {
    hide Run;
    hide Lawful;
    hide Ready;
    DeployIsAction();
    var rs := Prepare(cfg, id, v, pipelineId, body, "inspect");
    ReadingAllowed(v.environment);
    hide Schemas.ValidIdentity;
    hide Policy.EvaluatePolicy;
    hide CommonAlphabet;
    var all := ExecuteReady(cfg, rs, id, v, "inspect");
    StillVerified(cfg, Run(cfg, START, rs), Run(cfg, START, all), id, v, "inspect");
    hide SameSurroundings;
    forall i: nat | Wrote(cfg, all, i, id, 0)
      ensures var l := Run(cfg, START, all[..i]).ledgers[id]; l.approval == None && !NonProductionDeploy(l)
    {
      NoDeployBefore(cfg, all, i, id);
    }
    assert |Run(cfg, START, all).ledgers[id].receipts| == 1;
  }

  lemma NoDeployBefore(cfg: Config, rs: seq<Request>, i: nat, id: string)
    requires Wrote(cfg, rs, i, id, 0) && i < |rs|
    requires Run(cfg, START, rs).ledgers[id].approval == None
    requires Run(cfg, START, rs).ledgers[id].change == Some(ChangeOf("inspect"))
    ensures var l := Run(cfg, START, rs[..i]).ledgers[id]; l.approval == None && !NonProductionDeploy(l)
  {
    hide Run;
    hide MoveOf;
    assert rs[..i] + rs[i..] == rs;
    RunConcat(cfg, START, rs[..i], rs[i..]);
    RunExtends(cfg, Run(cfg, START, rs[..i]), rs[i..], id);
  }

  lemma ApproveReady(cfg: Config, s: State, id: string, v: Identity)
    requires Ready(cfg, s, id, v, "deploy")
    ensures var s' := Next(cfg, s, Approve(id, "approver"));
            && id in s'.ledgers && s'.live == s.live && s'.store == s.store && s'.clock == 0 && s'.jtis == {}
            && var l := s'.ledgers[id];
            && l.identity == v && l.state == Approved && l.approval.Some? && l.receipts == []
            && l.change == Some(ChangeOf("deploy")) && l.pipelineStatus == SUCCESS
  {
    hide Boundary.Lookup;
    hide LiveOf;
  }

  lemma ExecuteApprovedReady(cfg: Config, rs: seq<Request>, id: string, v: Identity) returns (all: seq<Request>)
    requires Lawful(cfg.jws) && Ready(cfg, Run(cfg, START, rs), id, v, "deploy") && TextsApart(cfg, v)
    requires Policy.EvaluatePolicy(Policy.AGENT, "deploy", v.environment).decision == Policy.Ask
    requires cfg.mode == GoBoundary ==> CommonAlphabet(v)
    requires forall r :: r in rs ==> !r.Execute?
    ensures id in Run(cfg, START, all).ledgers && Run(cfg, START, all).ledgers[id].approval.Some?
    ensures |Run(cfg, START, all).ledgers[id].receipts| == 1 && forall r :: r in all ==> !r.Execute?
  {
    hide Run;
    hide Next;
    hide Lawful;
    hide CommonAlphabet;
    hide NoCollision;
    hide CanonicalText;
    hide Boundary.Lookup;
    hide Policy.EvaluatePolicy;
    hide Inv;
    hide GrantIds;
    hide Sign;
    var approve := Approve(id, "approver");
    var approved := rs + [approve];
    ApproveReady(cfg, Run(cfg, START, rs), id, v);
    RunConcat(cfg, START, rs, [approve]);
    RunOne(cfg, Run(cfg, START, rs), approve);
    var s := Run(cfg, START, approved);
    RunKeepsInv(cfg, approved);
    RunKeepsGrantIds(cfg, approved);
    var next := IssueThenExecute(cfg, s, id, "operator", 300, "grant-1", "attempt-1", 0);
    DelegationExactly(cfg, s, id, "operator", 300, "grant-1", "attempt-1", 0);
    assert WillReceive(cfg, s, id, 300, "grant-1", "attempt-1", 0);
    RunConcat(cfg, START, approved, next);
    all := approved + next;
  }

  /** The guarded path: for every production release some run from the start, without any execution
      by a person, has the agent's change approved, granted a capability and executed under it. */
  lemma ApprovedDelegation(cfg: Config, id: string, v: Identity, pipelineId: string, body: string)
    requires Lawful(cfg.jws) && Releasable(cfg, v, pipelineId, body) && Policy.Production(v.environment)
    requires cfg.mode == GoBoundary ==> CommonField(v.project)
    requires TextsApart(cfg, v)
    ensures exists rs: seq<Request> ::
              && id in Run(cfg, START, rs).ledgers && |Run(cfg, START, rs).ledgers[id].receipts| == 1
              && Run(cfg, START, rs).ledgers[id].approval.Some? && forall r :: r in rs ==> !r.Execute?
  {
    hide Run;
    hide Lawful;
    hide TextsApart;
    hide Ready;
    DeployIsAction();
    var rs := Prepare(cfg, id, v, pipelineId, body, "deploy");
    AskForProduction(v.environment);
    Schemas.ValidCommonAlphabet(v);
    hide Schemas.ValidIdentity;
    hide CommonAlphabet;
    hide Policy.EvaluatePolicy;
    hide Policy.Production;
    var all := ExecuteApprovedReady(cfg, rs, id, v);
    assert |Run(cfg, START, all).ledgers[id].receipts| == 1;
  }

  lemma AskForProduction(environment: string)
    requires Schemas.IsEnvironment(environment) && Policy.Production(environment)
    ensures Policy.EvaluatePolicy(Policy.AGENT, "deploy", environment).decision == Policy.Ask
  {
    DeployIsAction();
    Policy.PolicyTable("deploy", environment);
  }
}
