/** The control plane as a transition system: every request runs alone, start to commit. */
module Workflow {
  import opened Text
  import opened Identities
  import opened Comparison
  import opened Capability
  import opened Ledgers
  import opened Schemas
  import Boundary
  import Policy

  type TargetName = (string, string)

  /** `live` is the database's copy of the targets, `store` the Go executor's own; `undelivered` are
      the committed updates of the first whose call to the second has not got through. */
  datatype State = State(
    ledgers: map<string, Ledger>,
    live: map<TargetName, Identity>,
    store: Boundary.Targets,
    undelivered: multiset<Identity>,
    hooks: set<string>,
    jtis: set<string>,
    clock: int)

  const START: State := State(map[], map[], map[], multiset{}, {}, {}, 0)

  /** Identifiers that the service draws at random, and whether a call to the executor gets
      through, are part of the request. So are the instants at which a request read the clock
      before its last step. */
  datatype Request =
    | CreateEpoch(id: string, raw: Identity, pipelineId: string, requester: string)
    | RequestChange(id: string, change: Change)
    | Webhook(body: string, header: string)
    | Approve(id: string, approver: string)
    | Issue(id: string, requester: string, ttl: int, jti: string, stampedAt: int)
    | Execute(id: string, key: string, reachable: bool)
    | ExecuteAgent(id: string, key: string, token: string, admittedAt: int, reachable: bool)
    | Observe(raw: Identity, delivered: bool)
    | Drift(id: string, field: Field, value: string, delivered: bool)
    | Deliver(target: Identity)
    | AttachEvidence(id: string, kind: string, digest: string)
    | Tick(micros: nat)
    | RestartExecutor

  datatype Response =
    | Refused(status: nat)
    | Done
    | HookTaken(duplicate: bool)
    | ApprovalIs(approval: Approval)
    | CapabilityIs(token: string, grant: Grant)
    | ReceiptIs(receipt: Receipt)

  function SetLedger(s: State, id: string, l: Ledger): State {
    s.(ledgers := s.ledgers[id := l])
  }

  function LiveOf(s: State, v: Identity): Option<Identity> {
    if (v.project, v.environment) in s.live then Some(s.live[(v.project, v.environment)]) else None
  }

  // ---------------------------------------------------------------- one function per request

  function StepCreate(cfg: Config, s: State, id: string, raw: Identity, rawPipeline: string,
                      requester: string): (State, Response) {
    InsertEpoch(cfg, s, id, ParseIdentity(raw), ParseText(rawPipeline, 1, 80), requester)
  }

  function InsertEpoch(cfg: Config, s: State, id: string, v: Option<Identity>, p: Option<string>,
                       requester: string): (State, Response) {
    if v.None? || p.None? then (s, Refused(422))
    else if id in s.ledgers then (s, Refused(500))
    else (SetLedger(s, id, NewLedger(cfg.sha, v.value, p.value, requester)), Done)
  }

  /** The second commit of `create_agent_change`. */
  function StepChange(s: State, id: string, c: Change): (State, Response) {
    if !IsAction(c.action) || c.actorType != Policy.AGENT then (s, Refused(422))
    else if id !in s.ledgers || s.ledgers[id].change.Some? then (s, Refused(500))
    else (SetLedger(s, id, AddChange(s.ledgers[id], c)), Done)
  }

  predicate IsPipelineHook(header: string) {
    Lower(header) == "pipeline hook"
  }

  function HookAll(ledgers: map<string, Ledger>, b: Body): map<string, Ledger>
    requires b.Attributes?
  {
    map id | id in ledgers ::
      if ledgers[id].pipelineId == b.id then HookWrite(ledgers[id], b.id, b.status, b.sha) else ledgers[id]
  }

  function StepWebhook(cfg: Config, s: State, body: string, header: string): (State, Response) {
    var hash := cfg.sha(body);
    if |body| > cfg.maxBody then (s, Refused(413))
    else if hash in s.hooks then (s, HookTaken(true))
    else match cfg.parse(body)
      case NotJson => (s, Refused(400))
      case Unreadable => (s, Refused(500))
      case Attributes(_, _, _) =>
        var s' := s.(hooks := s.hooks + {hash});
        (if IsPipelineHook(header) then s'.(ledgers := HookAll(s.ledgers, cfg.parse(body))) else s', HookTaken(false))
  }

  function StepApprove(s: State, id: string, approver: string): (State, Response) {
    if id !in s.ledgers then (s, Refused(404))
    else
      var l := s.ledgers[id];
      match ApproveDecide(l)
      case ApproveRefused(status) => (s, Refused(status))
      case AlreadyApproved(a) => (s, ApprovalIs(a))
      case GiveApproval => (SetLedger(s, id, ApproveWrite(l, approver)), ApprovalIs(Approval(approver, l.fingerprint)))
  }

  /** The token is stamped with the clock while the request runs, at or before its commit. */
  function StepIssue(cfg: Config, s: State, id: string, requester: string, ttl: int, jti: string,
                     stampedAt: int): (State, Response) {
    if id !in s.ledgers then (s, Refused(404))
    else if stampedAt > s.clock then (s, Refused(400))
    else
      var l := s.ledgers[id];
      match IssueDecide(l)
      case IssueRefused(status) => (s, Refused(status))
      case IssueNoted(d, status) => (SetLedger(s, id, NotePolicy(l, d)), Refused(status))
      case IssueGranted(d) => CommitGrant(s, id, requester, d, IssueToken(cfg, id, l, ttl, jti, stampedAt))
  }

  /** The grant's primary key is its random identifier; a repeat would fail the commit. */
  function CommitGrant(s: State, id: string, requester: string, d: Policy.PolicyDecision, i: Issued): (State, Response)
    requires id in s.ledgers && s.ledgers[id].change.Some?
  {
    if i.jti == "" || i.jti in s.jtis then (s, Refused(500))
    else
      var l' := IssueWrite(id, s.ledgers[id], d, requester, i);
      (SetLedger(s, id, l').(jtis := s.jtis + {i.jti}), CapabilityIs(i.token, l'.grants[|l'.grants| - 1]))
  }

  /** `execute_epoch` on an existing epoch. */
  function StepExecuteEpoch(cfg: Config, s: State, id: string, ctx: Option<Context>, key: string,
                            reachable: bool): (State, Response)
    requires id in s.ledgers
  {
    var l := s.ledgers[id];
    var d := ExecDecide(l, ctx, key, LiveOf(s, l.identity));
    FinishExecution(s, id, key, d, Answer(cfg, s, l, d, ctx, reachable))
  }

  /** The executor's answer, if the decision is to call it and the call gets through. */
  function Answer(cfg: Config, s: State, l: Ledger, d: ExecDecision, ctx: Option<Context>,
                  reachable: bool): Option<Result> {
    if d.Proceed? && reachable then CallExecutor(cfg, s.store, l.identity, d.observed, ctx, s.clock) else None
  }

  function FinishExecution(s: State, id: string, key: string, d: ExecDecision,
                           answer: Option<Result>): (State, Response)
    requires id in s.ledgers
  {
    match d
    case Replayed(r) => (s, ReceiptIs(r))
    case ExecRefused(status) => (s, Refused(status))
    case Proceed(_) => CommitReceipt(s, id, key, answer)
  }

  function CommitReceipt(s: State, id: string, key: string, result: Option<Result>): (State, Response)
    requires id in s.ledgers
  {
    match result
    case None => (s, Refused(502))
    case Some(r) =>
      (SetLedger(s, id, ExecWrite(id, s.ledgers[id], key, r)), ReceiptIs(Receipt(key, s.ledgers[id].fingerprint, r)))
  }

  function StepExecute(cfg: Config, s: State, id: string, key: string, reachable: bool): (State, Response) {
    if id !in s.ledgers then (s, Refused(404)) else StepExecuteEpoch(cfg, s, id, None, key, reachable)
  }

  /** The orchestrator's own checks run when the request arrives, the executor's when it is
      called; `admittedAt` is the first of the two instants and cannot be later than now. */
  function StepExecuteAgent(cfg: Config, s: State, id: string, key: string, token: string, admittedAt: int,
                            reachable: bool): (State, Response) {
    if id !in s.ledgers then (s, Refused(404))
    else if admittedAt > s.clock then (s, Refused(400))
    else match Admit(cfg, id, s.ledgers[id], token, admittedAt)
      case NotAdmitted(status) => (s, Refused(status))
      case Admitted(ctx) => StepExecuteEpoch(cfg, s, id, Some(ctx), key, reachable)
  }

  /** The database commits first; the executor hears of it afterwards, or not. */
  function Publish(cfg: Config, s: State, v: Identity, delivered: bool): (State, Response) {
    var s' := s.(live := s.live[(v.project, v.environment) := v]);
    if cfg.mode == InProcess then (s', Done)
    else if !delivered then (s'.(undelivered := s.undelivered + multiset{v}), Refused(502))
    else (s'.(store := s.store[Boundary.TargetKey(v) := v]), Done)
  }

  function StepObserve(cfg: Config, s: State, raw: Identity, delivered: bool): (State, Response) {
    var v := ParseIdentity(raw);
    if v.None? then (s, Refused(422)) else Publish(cfg, s, v.value, delivered)
  }

  /** A call that was given up arrives late: the second half, on its own, of one update that the
      database committed. */
  function StepDeliver(s: State, v: Identity): (State, Response) {
    if v !in s.undelivered then (s, Refused(400))
    else (s.(store := s.store[Boundary.TargetKey(v) := v], undelivered := s.undelivered - multiset{v}), Done)
  }

  function StepDrift(cfg: Config, s: State, id: string, f: Field, value: string, delivered: bool): (State, Response) {
    if ParseText(value, 1, 256).None? then (s, Refused(422))
    else if id !in s.ledgers then (s, Refused(404))
    else if f == Project || f == Environment then (s, Refused(400))
    else match LiveOf(s, s.ledgers[id].identity)
      case None => (s, Refused(409))
      case Some(target) => Publish(cfg, s, Set(target, f, ParseText(value, 1, 256).value), delivered)
  }

  function StepEvidence(s: State, id: string, kind: string, digest: string): (State, Response) {
    if id !in s.ledgers then (s, Refused(404))
    else (SetLedger(s, id, Record(s.ledgers[id], EvidenceAttached(kind, digest))), Done)
  }

  function Step(cfg: Config, s: State, r: Request): (State, Response) {
    match r
    case CreateEpoch(id, raw, pipelineId, requester) => StepCreate(cfg, s, id, raw, pipelineId, requester)
    case RequestChange(id, change) => StepChange(s, id, change)
    case Webhook(body, header) => StepWebhook(cfg, s, body, header)
    case Approve(id, approver) => StepApprove(s, id, approver)
    case Issue(id, requester, ttl, jti, at) => StepIssue(cfg, s, id, requester, ttl, jti, at)
    case Execute(id, key, reachable) => StepExecute(cfg, s, id, key, reachable)
    case ExecuteAgent(id, key, token, at, reachable) => StepExecuteAgent(cfg, s, id, key, token, at, reachable)
    case Observe(raw, delivered) => StepObserve(cfg, s, raw, delivered)
    case Drift(id, field, value, delivered) => StepDrift(cfg, s, id, field, value, delivered)
    case Deliver(target) => StepDeliver(s, target)
    case AttachEvidence(id, kind, digest) => StepEvidence(s, id, kind, digest)
    case Tick(micros) => (s.(clock := s.clock + micros), Done)
    case RestartExecutor => (s.(store := map[]), Done)
  }

  function Next(cfg: Config, s: State, r: Request): State {
    Step(cfg, s, r).0
  }

  /** The state after a run. */
  function Run(cfg: Config, s: State, rs: seq<Request>): State {
    if rs == [] then s else Next(cfg, Run(cfg, s, rs[..|rs| - 1]), rs[|rs| - 1])
  }

  lemma RunNothing(cfg: Config, s: State)
    ensures Run(cfg, s, []) == s
  {
  }

  lemma RunOne(cfg: Config, s: State, r: Request)
    ensures Run(cfg, s, [r]) == Next(cfg, s, r)
  {
    hide Next;
    assert [r][..0] == [];
  }

  lemma RunTwo(cfg: Config, s: State, a: Request, b: Request)
    ensures Run(cfg, s, [a, b]) == Next(cfg, Next(cfg, s, a), b)
  {
    hide Next;
    assert [a, b][..1] == [a];
    assert Run(cfg, s, [a, b]) == Next(cfg, Run(cfg, s, [a]), b);
    hide Run;
    RunOne(cfg, s, a);
  }

  lemma RunThree(cfg: Config, s: State, a: Request, b: Request, c: Request)
    ensures Run(cfg, s, [a, b, c]) == Next(cfg, Next(cfg, Next(cfg, s, a), b), c)
  {
    hide Next;
    assert [a, b, c][..2] == [a, b];
    assert Run(cfg, s, [a, b, c]) == Next(cfg, Run(cfg, s, [a, b]), c);
    hide Run;
    RunTwo(cfg, s, a, b);
  }

  lemma {:induction false} RunConcat(cfg: Config, s: State, a: seq<Request>, b: seq<Request>)
    ensures Run(cfg, s, a + b) == Run(cfg, Run(cfg, s, a), b)
  {
    hide Next;
    if b == [] {
      assert a + b == a;
    } else {
      RunConcat(cfg, s, a, b[..|b| - 1]);
      assert (a + b)[..|a + b| - 1] == a + b[..|b| - 1];
    }
  }
}
