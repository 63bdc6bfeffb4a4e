/** One epoch's ledger: its row and every row that refers to it, which the epoch's row lock
    guards; and what each service operation decides and writes there
    (orchestrator/app/services.py, governance.py, models.py). */
module Ledgers {
  import opened Text
  import opened Identities
  import opened Comparison
  import opened Capability
  import opened Policy
  import Boundary

  datatype Mode = InProcess | GoBoundary

  /** What a webhook body turns out to be: not JSON, JSON whose `object_attributes` cannot be
      read, or the three attributes used. */
  datatype Body = NotJson | Unreadable | Attributes(id: string, status: string, sha: string)

  /** The deployment's fixed choices and the libraries it relies on. */
  datatype Config = Config(mode: Mode, sha: Hash, jws: Jws, parse: string -> Body, maxBody: nat)

  datatype EpochState = Draft | Approved | Ended(outcome: Outcome)

  datatype Approval = Approval(approver: string, fingerprint: string)

  datatype Change = Change(
    externalRef: string, reason: string, actorType: string, actorId: string, requestedBy: string, action: string)

  datatype Grant = Grant(jti: string, scope: Scope, issuedBy: string, expiresAt: int, revoked: bool)

  datatype Receipt = Receipt(key: string, expectedFingerprint: string, result: Result)

  datatype OutboxEntry = OutboxEntry(epochId: string, outcome: Outcome, expectedFingerprint: string,
                                     observedFingerprint: string)

  datatype Event =
    | EpochCreated(fingerprint: string, pipelineId: string)
    | ChangeRequested(change: Change)
    | PipelineVerified(pipelineId: string, commitSha: string)
    | PipelineRejected(pipelineId: string, observedSha: string, expectedSha: string)
    | ApprovalGiven(approver: string, approvedFingerprint: string)
    | PolicyEvaluated(decision: Decision, ruleId: string, action: string, environment: string)
    | CapabilityIssued(jti: string, decision: Decision, requester: string, scope: Scope, expiresAt: int)
    | OutcomeRecorded(expectedFingerprint: string, result: Result)
    | EvidenceAttached(kind: string, digest: string)

  datatype Ledger = Ledger(
    identity: Identity,
    pipelineId: string,
    fingerprint: string,
    createdBy: string,
    pipelineStatus: string,
    state: EpochState,
    approval: Option<Approval>,
    change: Option<Change>,
    grants: seq<Grant>,
    receipts: seq<Receipt>,
    outbox: seq<OutboxEntry>,
    timeline: seq<Event>)

  function Record(l: Ledger, e: Event): Ledger {
    l.(timeline := l.timeline + [e])
  }

  // ---------------------------------------------------------------- creation

  function NewLedger(sha: Hash, v: Identity, pipelineId: string, requester: string): Ledger {
    var fp := Fingerprint(Python, sha, v);
    Ledger(v, pipelineId, fp, requester, "pending", Draft, None, None, [], [], [], [EpochCreated(fp, pipelineId)])
  }

  function AddChange(l: Ledger, c: Change): Ledger {
    Record(l.(change := Some(c)), ChangeRequested(c))
  }

  // ---------------------------------------------------------------- webhook

  const SUCCESS: string := "success"
  const SHA_MISMATCH: string := "sha_mismatch"

  function HookStatus(l: Ledger, status: string, sha: string): string {
    if sha == l.identity.commitSha then status else SHA_MISMATCH
  }

  /** The webhook loop body for one epoch that has the reported pipeline id. */
  function HookWrite(l: Ledger, pipelineId: string, status: string, sha: string): Ledger {
    var now := HookStatus(l, status, sha);
    var l' := l.(pipelineStatus := now);
    if now == SUCCESS && l.pipelineStatus != SUCCESS then Record(l', PipelineVerified(pipelineId, sha))
    else if now == SHA_MISMATCH && l.pipelineStatus != SHA_MISMATCH then
      Record(l', PipelineRejected(pipelineId, sha, l.identity.commitSha))
    else l'
  }

  // ---------------------------------------------------------------- approve

  datatype ApproveDecision = ApproveRefused(status: nat) | AlreadyApproved(approval: Approval) | GiveApproval

  function ApproveDecide(l: Ledger): ApproveDecision {
    if l.pipelineStatus != SUCCESS then ApproveRefused(409)
    else if l.approval.Some? then AlreadyApproved(l.approval.value)
    else GiveApproval
  }

  function ApproveWrite(l: Ledger, approver: string): Ledger {
    Record(l.(state := Approved, approval := Some(Approval(approver, l.fingerprint))),
           ApprovalGiven(approver, l.fingerprint))
  }

  // ---------------------------------------------------------------- issue a capability

  datatype IssueDecision =
    | IssueRefused(status: nat)
    | IssueNoted(policy: PolicyDecision, status: nat)
    | IssueGranted(policy: PolicyDecision)

  predicate ApprovedAsIs(l: Ledger) {
    l.approval.Some? && l.approval.value.fingerprint == l.fingerprint
  }

  function IssueDecide(l: Ledger): IssueDecision {
    if l.change.None? || l.change.value.actorType != AGENT then IssueRefused(409)
    else if l.pipelineStatus != SUCCESS then IssueRefused(409)
    else
      var d := EvaluatePolicy(l.change.value.actorType, l.change.value.action, l.identity.environment);
      if d.decision == Deny then IssueNoted(d, 403)
      else if d.decision == Ask && !(l.state == Approved && ApprovedAsIs(l)) then IssueNoted(d, 409)
      else IssueGranted(d)
  }

  /** The policy event, which is committed even when the request is then refused. */
  function NotePolicy(l: Ledger, d: PolicyDecision): Ledger
    requires l.change.Some?
  {
    Record(l, PolicyEvaluated(d.decision, d.ruleId, l.change.value.action, l.identity.environment))
  }

  function ScopeOf(id: string, l: Ledger): Scope
    requires l.change.Some?
  {
    Scope(id, l.change.value.actorType, l.change.value.actorId, l.identity.project, l.identity.environment,
          l.change.value.action, l.fingerprint)
  }

  function IssueToken(cfg: Config, id: string, l: Ledger, ttl: int, jti: string, now: int): Issued
    requires l.change.Some?
  {
    IssueCapability(cfg.jws, ScopeOf(id, l), ttl, now, jti)
  }

  function IssueWrite(id: string, l: Ledger, d: PolicyDecision, requester: string, i: Issued): Ledger
    requires l.change.Some?
  {
    var scope := ScopeOf(id, l);
    var l' := NotePolicy(l, d);
    Record(l'.(grants := l'.grants + [Grant(i.jti, scope, requester, i.expiresAt, false)]),
           CapabilityIssued(i.jti, d.decision, if d.decision == Ask then requester else "policy-engine", scope,
                            i.expiresAt))
  }

  // ---------------------------------------------------------------- execute

  function FindGrant(grants: seq<Grant>, jti: string): Option<Grant> {
    if grants == [] then None
    else if grants[0].jti == jti then Some(grants[0])
    else FindGrant(grants[1..], jti)
  }

  datatype Admission = Admitted(context: Context) | NotAdmitted(status: nat)

  /** `execute_agent_epoch` up to its call of `execute_epoch`. */
  function Admit(cfg: Config, id: string, l: Ledger, token: string, now: int): Admission {
    if l.change.None? || l.change.value.actorType != AGENT then NotAdmitted(409)
    else
      var verdict := PyVerify(cfg.jws, token, ScopeOf(id, l), now);
      if verdict.Rejected? then NotAdmitted(403)
      else
        var grant := FindGrant(l.grants, verdict.claims.jti);
        if grant.None? || grant.value.revoked || grant.value.expiresAt <= now then NotAdmitted(403)
        else
          var d := EvaluatePolicy(l.change.value.actorType, l.change.value.action, l.identity.environment);
          if d.decision == Deny then NotAdmitted(403)
          else Admitted(Context(id, l.change.value.actorType, l.change.value.actorId, l.change.value.action,
                                l.fingerprint, token, d.decision, d.ruleId))
  }

  function FindReceipt(receipts: seq<Receipt>, key: string): Option<Receipt> {
    if receipts == [] then None
    else if receipts[0].key == key then Some(receipts[0])
    else FindReceipt(receipts[1..], key)
  }

  datatype ExecDecision = Replayed(receipt: Receipt) | ExecRefused(status: nat) | Proceed(observed: Identity)

  /** The policy let an agent run without an approval. */
  predicate PolicyAllows(ctx: Option<Context>) {
    ctx.Some? && ctx.value.actorType == AGENT && ctx.value.policyDecision == Allow
  }

  function ExecDecide(l: Ledger, ctx: Option<Context>, key: string, live: Option<Identity>): ExecDecision {
    var existing := FindReceipt(l.receipts, key);
    if existing.Some? then Replayed(existing.value)
    else if l.state != Approved && !(PolicyAllows(ctx) && l.state == Draft) then ExecRefused(409)
    else if !PolicyAllows(ctx) && !ApprovedAsIs(l) then ExecRefused(409)
    else if live.None? then ExecRefused(409)
    else Proceed(live.value)
  }

  /** `executor_client().execute`: the remote executor ignores the copy the database holds. */
  function CallExecutor(cfg: Config, targets: Boundary.Targets, expected: Identity, observed: Identity,
                        ctx: Option<Context>, now: int): Option<Result> {
    match cfg.mode
    case InProcess => Boundary.LocalExecute(cfg.jws, cfg.sha, expected, observed, ctx, now)
    case GoBoundary => Boundary.GoExecute(cfg.jws, cfg.sha, targets, expected, ctx, now)
  }

  function ExecWrite(id: string, l: Ledger, key: string, r: Result): Ledger {
    Record(l.(state := Ended(r.outcome),
              receipts := l.receipts + [Receipt(key, l.fingerprint, r)],
              outbox := l.outbox + [OutboxEntry(id, r.outcome, l.fingerprint, r.observedFingerprint)]),
           OutcomeRecorded(l.fingerprint, r))
  }
}
