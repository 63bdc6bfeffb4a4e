/** What one request does to one epoch. Every request, whatever it is about, makes one of eight
    moves on the ledger of an existing epoch. */
module Moves {
  import opened Text
  import opened Identities
  import opened Comparison
  import opened Capability
  import opened Ledgers
  import opened Workflow
  import Boundary
  import Policy
  import Schemas

  datatype Move =
    | Stay
    | OpenChange(change: Change)
    | Hook(status: string, sha: string)
    | Bless(approver: string)
    | Note
    | GrantTo(requester: string, issued: Issued)
    | Receive(call: ExecCall)
    | Attach(kind: string, digest: string)

  /** An execution that ran to its commit: the agent's admitted context if there was one, the
      executor's store and the clock when it was called, and its answer. */
  datatype ExecCall = ExecCall(
    ctx: Option<Context>,
    key: string,
    observed: Identity,
    targets: Boundary.Targets,
    now: int,
    result: Result)

  /** The two capability moves need a change request. */
  predicate Applicable(l: Ledger, m: Move) {
    m.Note? || m.GrantTo? ==> l.change.Some?
  }

  function ApplyMove(id: string, l: Ledger, m: Move): Ledger
    requires Applicable(l, m)
  {
    match m
    case Stay => l
    case OpenChange(c) => AddChange(l, c)
    case Hook(status, sha) => HookWrite(l, l.pipelineId, status, sha)
    case Bless(approver) => ApproveWrite(l, approver)
    case Note => NotePolicy(l, PolicyFor(l))
    case GrantTo(requester, issued) => IssueWrite(id, l, PolicyFor(l), requester, issued)
    case Receive(c) => ExecWrite(id, l, c.key, c.result)
    case Attach(kind, digest) => Record(l, EvidenceAttached(kind, digest))
  }

  function PolicyFor(l: Ledger): Policy.PolicyDecision
    requires l.change.Some?
  {
    Policy.EvaluatePolicy(l.change.value.actorType, l.change.value.action, l.identity.environment)
  }

  /** The context of an agent's execution was admitted by the orchestrator for this ledger. */
  ghost predicate AdmittedContext(cfg: Config, id: string, l: Ledger, ctx: Context, now: int) {
    exists at :: at <= now && Admit(cfg, id, l, ctx.token, at) == Admitted(ctx)
  }

  /** When the move can happen. */
  ghost predicate Enabled(cfg: Config, id: string, l: Ledger, m: Move) {
    match m
    case Stay => true
    case OpenChange(c) => l.change.None? && c.actorType == Policy.AGENT && Schemas.IsAction(c.action)
    case Hook(_, _) => true
    case Bless(_) => ApproveDecide(l) == GiveApproval
    case Note => IssueDecide(l).IssueNoted?
    case GrantTo(_, issued) => IssueDecide(l).IssueGranted? && issued.jti != ""
    case Receive(c) =>
      && ExecDecide(l, c.ctx, c.key, Some(c.observed)) == Proceed(c.observed)
      && (c.ctx.Some? ==> AdmittedContext(cfg, id, l, c.ctx.value, c.now))
      && CallExecutor(cfg, c.targets, l.identity, c.observed, c.ctx, c.now) == Some(c.result)
    case Attach(_, _) => true
  }

  // ---------------------------------------------------------------- from requests to moves

  function ExecMove(cfg: Config, s: State, id: string, ctx: Option<Context>, key: string, reachable: bool): Move
    requires id in s.ledgers
  {
    var l := s.ledgers[id];
    var d := ExecDecide(l, ctx, key, LiveOf(s, l.identity));
    FinishMove(s, d, Answer(cfg, s, l, d, ctx, reachable), ctx, key)
  }

  function FinishMove(s: State, d: ExecDecision, answer: Option<Result>, ctx: Option<Context>, key: string): Move {
    if d.Proceed? && answer.Some? then Receive(ExecCall(ctx, key, d.observed, s.store, s.clock, answer.value)) else Stay
  }

  function HookMove(cfg: Config, s: State, l: Ledger, body: string, header: string): Move {
    var b := cfg.parse(body);
    if |body| <= cfg.maxBody && cfg.sha(body) !in s.hooks && b.Attributes? && IsPipelineHook(header)
      && b.id == l.pipelineId
    then Hook(b.status, b.sha)
    else Stay
  }

  function IssueMove(cfg: Config, s: State, id: string, requester: string, ttl: int, jti: string, at: int): Move
    requires id in s.ledgers
  {
    var l := s.ledgers[id];
    match IssueDecide(l)
    case IssueRefused(_) => Stay
    case IssueNoted(_, _) => Note
    case IssueGranted(_) =>
      if jti == "" || jti in s.jtis then Stay else GrantTo(requester, IssueToken(cfg, id, l, ttl, jti, at))
  }

  function MoveOf(cfg: Config, s: State, r: Request, id: string): Move
    requires id in s.ledgers
  {
    var l := s.ledgers[id];
    match r
    case RequestChange(i, c) =>
      if i == id && Schemas.IsAction(c.action) && c.actorType == Policy.AGENT && l.change.None?
      then OpenChange(c) else Stay
    case Webhook(body, header) => HookMove(cfg, s, l, body, header)
    case Approve(i, approver) => if i == id && ApproveDecide(l) == GiveApproval then Bless(approver) else Stay
    case Issue(i, requester, ttl, jti, at) =>
      if i == id && at <= s.clock then IssueMove(cfg, s, id, requester, ttl, jti, at) else Stay
    case Execute(i, key, reachable) => if i == id then ExecMove(cfg, s, id, None, key, reachable) else Stay
    case ExecuteAgent(i, key, token, at, reachable) =>
      if i != id || at > s.clock then Stay
      else
        var a := Admit(cfg, id, l, token, at);
        if a.Admitted? then ExecMove(cfg, s, id, Some(a.context), key, reachable) else Stay
    case AttachEvidence(i, kind, digest) => if i == id then Attach(kind, digest) else Stay
    case _ => Stay
  }

  lemma AdmitFacts(cfg: Config, id: string, l: Ledger, token: string, at: int)
    requires Admit(cfg, id, l, token, at).Admitted?
    ensures var ctx := Admit(cfg, id, l, token, at).context;
            && l.change.Some? && l.change.value.actorType == Policy.AGENT
            && ctx.actorType == Policy.AGENT && ctx.action == l.change.value.action && ctx.token == token
            && ctx.actorId == l.change.value.actorId && ctx.epochId == id
            && ctx.approvedFingerprint == l.fingerprint
            && ctx.policyDecision == PolicyFor(l).decision != Policy.Deny
  {
  }

  lemma MoveEnabled(cfg: Config, s: State, r: Request, id: string)
    requires id in s.ledgers
    ensures Enabled(cfg, id, s.ledgers[id], MoveOf(cfg, s, r, id))
  {
    hide Admit;
    hide CallExecutor;
    hide Policy.EvaluatePolicy;
    hide FindReceipt;
    hide PolicyAllows;
    hide IsPipelineHook;
    if r.ExecuteAgent? && MoveOf(cfg, s, r, id).Receive? {
      AdmitFacts(cfg, id, s.ledgers[id], r.token, r.admittedAt);
    }
  }

  lemma IssuePolicy(l: Ledger)
    ensures IssueDecide(l).IssueNoted? ==> l.change.Some? && IssueDecide(l).policy == PolicyFor(l)
    ensures IssueDecide(l).IssueGranted? ==> l.change.Some? && IssueDecide(l).policy == PolicyFor(l)
  {
  }

  ghost predicate Moved(s: State, s': State, id: string, m: Move)
    requires id in s.ledgers && Applicable(s.ledgers[id], m)
  {
    id in s'.ledgers && s'.ledgers[id] == ApplyMove(id, s.ledgers[id], m)
  }

  lemma InsertMoves(cfg: Config, s: State, i: string, v: Option<Identity>, p: Option<string>, requester: string,
                    id: string)
    requires id in s.ledgers
    ensures Moved(s, InsertEpoch(cfg, s, i, v, p, requester).0, id, Stay)
  {
  }

  lemma ChangeMoves(cfg: Config, s: State, i: string, c: Change, id: string)
    requires id in s.ledgers
    ensures Moved(s, StepChange(s, i, c).0, id, MoveOf(cfg, s, RequestChange(i, c), id))
  {
  }

  lemma WebhookMoves(cfg: Config, s: State, body: string, header: string, id: string)
    requires id in s.ledgers
    ensures Moved(s, StepWebhook(cfg, s, body, header).0, id, HookMove(cfg, s, s.ledgers[id], body, header))
  {
  }

  lemma ApproveMoves(cfg: Config, s: State, i: string, approver: string, id: string)
    requires id in s.ledgers
    ensures Moved(s, StepApprove(s, i, approver).0, id, MoveOf(cfg, s, Approve(i, approver), id))
  {
  }

  lemma GrantMoves(s: State, i: string, requester: string, d: Policy.PolicyDecision, issued: Issued, id: string)
    requires id in s.ledgers && i in s.ledgers && s.ledgers[i].change.Some? && d == PolicyFor(s.ledgers[i])
    ensures Moved(s, CommitGrant(s, i, requester, d, issued).0, id,
                  if i == id && issued.jti != "" && issued.jti !in s.jtis then GrantTo(requester, issued) else Stay)
  {
  }

  lemma NoteMoves(s: State, i: string, id: string)
    requires id in s.ledgers && i in s.ledgers && s.ledgers[i].change.Some?
    ensures Moved(s, SetLedger(s, i, NotePolicy(s.ledgers[i], PolicyFor(s.ledgers[i]))), id,
                  if i == id then Note else Stay)
  {
  }

  lemma IssueMoves(cfg: Config, s: State, i: string, requester: string, ttl: int, jti: string, at: int, id: string)
    requires id in s.ledgers && i in s.ledgers
    ensures var m := if i == id && at <= s.clock then IssueMove(cfg, s, id, requester, ttl, jti, at) else Stay;
            && Applicable(s.ledgers[id], m)
            && Moved(s, StepIssue(cfg, s, i, requester, ttl, jti, at).0, id, m)
  {
    IssuePolicy(s.ledgers[i]);
    StayApplies(id, s.ledgers[id]);
    if at > s.clock {
      return;
    }
    match IssueDecide(s.ledgers[i])
    case IssueRefused(_) =>
    case IssueNoted(d, _) => NoteMoves(s, i, id);
    case IssueGranted(d) => GrantMoves(s, i, requester, d, IssueToken(cfg, i, s.ledgers[i], ttl, jti, at), id);
  }

  lemma FinishMoves(s: State, i: string, d: ExecDecision, answer: Option<Result>, ctx: Option<Context>, key: string,
                    id: string)
    requires id in s.ledgers && i in s.ledgers
    ensures Moved(s, FinishExecution(s, i, key, d, answer).0, id,
                  if i == id then FinishMove(s, d, answer, ctx, key) else Stay)
  {
  }

  lemma ExecMoves(cfg: Config, s: State, i: string, ctx: Option<Context>, key: string, reachable: bool, id: string)
    requires id in s.ledgers && i in s.ledgers
    ensures Moved(s, StepExecuteEpoch(cfg, s, i, ctx, key, reachable).0, id,
                  if i == id then ExecMove(cfg, s, id, ctx, key, reachable) else Stay)
  {
    var l := s.ledgers[i];
    var d := ExecDecide(l, ctx, key, LiveOf(s, l.identity));
    FinishMoves(s, i, d, Answer(cfg, s, l, d, ctx, reachable), ctx, key, id);
  }

  lemma EvidenceMoves(cfg: Config, s: State, i: string, kind: string, digest: string, id: string)
    requires id in s.ledgers
    ensures Moved(s, StepEvidence(s, i, kind, digest).0, id, if i == id then Attach(kind, digest) else Stay)
  {
  }

  lemma TargetsStay(cfg: Config, s: State, r: Request, id: string)
    requires id in s.ledgers && (r.Observe? || r.Drift? || r.Deliver? || r.Tick? || r.RestartExecutor?)
    ensures Next(cfg, s, r).ledgers == s.ledgers
    ensures ApplyMove(id, s.ledgers[id], Stay) == s.ledgers[id]
  {
    hide Schemas.ParseIdentity;
    hide Schemas.ParseText;
    hide Admit;
    hide ExecDecide;
    hide CallExecutor;
    hide IssueDecide;
    hide Policy.EvaluatePolicy;
    hide Boundary.TargetKey;
  }

  lemma StayApplies(id: string, l: Ledger)
    ensures ApplyMove(id, l, Stay) == l
  {
  }

  /** A request changes an existing ledger by exactly its move; ledgers are never removed. */
  lemma StepIsMove(cfg: Config, s: State, r: Request, id: string)
    requires id in s.ledgers
    ensures id in Next(cfg, s, r).ledgers
    ensures Enabled(cfg, id, s.ledgers[id], MoveOf(cfg, s, r, id))
    ensures Applicable(s.ledgers[id], MoveOf(cfg, s, r, id))
    ensures Next(cfg, s, r).ledgers[id] == ApplyMove(id, s.ledgers[id], MoveOf(cfg, s, r, id))
  {
    hide Enabled;
    hide ApplyMove;
    hide Schemas.ParseIdentity;
    hide Schemas.ParseText;
    hide Admit;
    hide ExecDecide;
    hide CallExecutor;
    hide IssueDecide;
    hide Policy.EvaluatePolicy;
    hide Schemas.IsAction;
    MoveEnabled(cfg, s, r, id);
    match r
    case CreateEpoch(i, raw, p, requester) =>
      InsertMoves(cfg, s, i, Schemas.ParseIdentity(raw), Schemas.ParseText(p, 1, 80), requester, id);
    case RequestChange(i, c) => ChangeMoves(cfg, s, i, c, id);
    case Webhook(body, header) => WebhookMoves(cfg, s, body, header, id);
    case Approve(i, approver) => ApproveMoves(cfg, s, i, approver, id);
    case Issue(i, requester, ttl, jti, at) =>
      StayApplies(id, s.ledgers[id]);
      if i in s.ledgers {
        IssueMoves(cfg, s, i, requester, ttl, jti, at, id);
      }
    case Execute(i, key, reachable) =>
      StayApplies(id, s.ledgers[id]);
      if i in s.ledgers {
        ExecMoves(cfg, s, i, None, key, reachable, id);
      }
    case ExecuteAgent(i, key, token, at, reachable) =>
      StayApplies(id, s.ledgers[id]);
      if i in s.ledgers && Admit(cfg, i, s.ledgers[i], token, at).Admitted? {
        ExecMoves(cfg, s, i, Some(Admit(cfg, i, s.ledgers[i], token, at).context), key, reachable, id);
      }
    case AttachEvidence(i, kind, digest) => EvidenceMoves(cfg, s, i, kind, digest, id);
    case _ => TargetsStay(cfg, s, r, id);
  }

  lemma InsertAdds(cfg: Config, s: State, i: string, v: Option<Identity>, p: Option<string>, requester: string,
                   id: string)
    requires id !in s.ledgers && id in InsertEpoch(cfg, s, i, v, p, requester).0.ledgers
    ensures i == id && v.Some? && p.Some?
    ensures InsertEpoch(cfg, s, i, v, p, requester).0.ledgers[id] == NewLedger(cfg.sha, v.value, p.value, requester)
  {
    hide NewLedger;
  }

  lemma CreateAdds(cfg: Config, s: State, r: Request, id: string)
    requires id !in s.ledgers && r.CreateEpoch? && id in Next(cfg, s, r).ledgers
    ensures r.id == id
    ensures Schemas.ParseIdentity(r.raw).Some? && Schemas.ParseText(r.pipelineId, 1, 80).Some?
    ensures Next(cfg, s, r).ledgers[id]
            == NewLedger(cfg.sha, Schemas.ParseIdentity(r.raw).value, Schemas.ParseText(r.pipelineId, 1, 80).value,
                         r.requester)
  {
    hide Schemas.ParseIdentity;
    hide Schemas.ParseText;
    hide InsertEpoch;
    hide NewLedger;
    InsertAdds(cfg, s, r.id, Schemas.ParseIdentity(r.raw), Schemas.ParseText(r.pipelineId, 1, 80), r.requester, id);
  }

  lemma ExecKeys(cfg: Config, s: State, i: string, ctx: Option<Context>, key: string, reachable: bool)
    requires i in s.ledgers
    ensures StepExecuteEpoch(cfg, s, i, ctx, key, reachable).0.ledgers.Keys == s.ledgers.Keys
  {
    hide ExecDecide;
    hide Answer;
    hide ExecWrite;
  }

  lemma IssueKeys(cfg: Config, s: State, i: string, requester: string, ttl: int, jti: string, at: int)
    ensures StepIssue(cfg, s, i, requester, ttl, jti, at).0.ledgers.Keys == s.ledgers.Keys
  {
    hide IssueWrite;
    hide IssueToken;
    hide Policy.EvaluatePolicy;
  }

  lemma OthersAddNothing(cfg: Config, s: State, r: Request)
    requires !r.CreateEpoch?
    ensures Next(cfg, s, r).ledgers.Keys == s.ledgers.Keys
  {
    hide Schemas.ParseIdentity;
    hide Schemas.ParseText;
    hide Schemas.IsAction;
    hide Admit;
    hide HookWrite;
    hide ApproveDecide;
    hide Boundary.TargetKey;
    hide StepExecuteEpoch;
    hide StepIssue;
    match r
    case Issue(i, requester, ttl, jti, at) => IssueKeys(cfg, s, i, requester, ttl, jti, at);
    case Execute(i, key, reachable) => if i in s.ledgers { ExecKeys(cfg, s, i, None, key, reachable); }
    case ExecuteAgent(i, key, token, at, reachable) =>
      if i in s.ledgers && Admit(cfg, i, s.ledgers[i], token, at).Admitted? {
        ExecKeys(cfg, s, i, Some(Admit(cfg, i, s.ledgers[i], token, at).context), key, reachable);
      }
    case _ =>
  }

  /** The only way a ledger appears. */
  lemma StepCreates(cfg: Config, s: State, r: Request, id: string)
    requires id !in s.ledgers && id in Next(cfg, s, r).ledgers
    ensures r.CreateEpoch? && r.id == id
    ensures Schemas.ParseIdentity(r.raw).Some? && Schemas.ParseText(r.pipelineId, 1, 80).Some?
    ensures Next(cfg, s, r).ledgers[id]
            == NewLedger(cfg.sha, Schemas.ParseIdentity(r.raw).value, Schemas.ParseText(r.pipelineId, 1, 80).value,
                         r.requester)
  {
    if !r.CreateEpoch? {
      OthersAddNothing(cfg, s, r);
      assert false;
    }
    CreateAdds(cfg, s, r, id);
  }
}
