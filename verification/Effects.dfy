/** What each request does, in full: the state after it and its answer, said outright in terms of
    the rows before it. Every refusal is covered, with what it leaves behind. */
module Effects {
  import opened Text
  import opened Identities
  import opened Comparison
  import opened Capability
  import opened Ledgers
  import opened Workflow
  import opened Moves
  import opened Invariants
  import opened Delegation
  import Boundary
  import Policy
  import Schemas

  /** The state with one epoch's ledger replaced, or added. */
  ghost predicate OnlyLedger(s: State, s': State, id: string, l: Ledger) {
    s' == s.(ledgers := s.ledgers[id := l])
  }

  // ---------------------------------------------------------------- creating

  /** A valid identity under a new id is frozen with its fingerprint: pending, in DRAFT, with no
      other row and one event. Anything else is refused without a trace. */
  lemma Creates(cfg: Config, s: State, id: string, raw: Identity, rawPipeline: string, requester: string)
    ensures var (s', answer) := Step(cfg, s, CreateEpoch(id, raw, rawPipeline, requester));
            var v, p := Schemas.ParseIdentity(raw), Schemas.ParseText(rawPipeline, 1, 80);
            if v.Some? && p.Some? && id !in s.ledgers then
              var fp := Fingerprint(Python, cfg.sha, v.value);
              && OnlyLedger(s, s', id, Ledger(v.value, p.value, fp, requester, "pending", Draft, None, None, [], [], [],
                                              [EpochCreated(fp, p.value)]))
              && answer == Done
            else s' == s && answer == Refused(if v.None? || p.None? then 422 else 500)
  {
    hide Schemas.ParseIdentity;
    hide Schemas.ParseText;
    hide Fingerprint;
  }

  lemma RequestsChange(cfg: Config, s: State, id: string, c: Change)
    ensures var (s', answer) := Step(cfg, s, RequestChange(id, c));
            if && Schemas.IsAction(c.action) && c.actorType == "ai_agent"
               && id in s.ledgers && s.ledgers[id].change == None then
              var l := s.ledgers[id];
              && OnlyLedger(s, s', id, l.(change := Some(c), timeline := l.timeline + [ChangeRequested(c)]))
              && answer == Done
            else s' == s && answer.Refused?
  {
    hide Schemas.IsAction;
  }

  // ---------------------------------------------------------------- the webhook

  /** The status a report gives an epoch: the reported one for the epoch's commit. */
  function StatusAfter(l: Ledger, status: string, sha: string): string {
    if sha == l.identity.commitSha then status else "sha_mismatch"
  }

  /** The event a report adds, on a transition only. */
  function TransitionEvents(l: Ledger, pipelineId: string, status: string, sha: string): seq<Event> {
    var now := StatusAfter(l, status, sha);
    if now == "success" && l.pipelineStatus != "success" then [PipelineVerified(pipelineId, sha)]
    else if now == "sha_mismatch" && l.pipelineStatus != "sha_mismatch" then
      [PipelineRejected(pipelineId, sha, l.identity.commitSha)]
    else []
  }

  /** A delivery that is taken: short enough, new, and readable. */
  predicate Taken(cfg: Config, s: State, body: string) {
    |body| <= cfg.maxBody && cfg.sha(body) !in s.hooks && cfg.parse(body).Attributes?
  }

  /** A taken Pipeline Hook gives every epoch of its pipeline the status and the event, and leaves
      every other epoch alone; a taken delivery of another kind is recorded only. */
  lemma TakesDelivery(cfg: Config, s: State, body: string, header: string)
    requires Taken(cfg, s, body)
    ensures var (s', answer) := Step(cfg, s, Webhook(body, header));
            var b := cfg.parse(body);
            && answer == HookTaken(false) && s'.ledgers.Keys == s.ledgers.Keys
            && s' == s.(hooks := s.hooks + {cfg.sha(body)}, ledgers := s'.ledgers)
            && (forall id :: id in s.ledgers ==>
                  var l := s.ledgers[id];
                  s'.ledgers[id] == if Schemas.Lower(header) == "pipeline hook" && l.pipelineId == b.id
                                    then l.(pipelineStatus := StatusAfter(l, b.status, b.sha),
                                            timeline := l.timeline + TransitionEvents(l, b.id, b.status, b.sha))
                                    else l)
  {
    var b, s' := cfg.parse(body), Step(cfg, s, Webhook(body, header)).0;
    forall id | id in s.ledgers
      ensures var l := s.ledgers[id];
              s'.ledgers[id] == if Schemas.Lower(header) == "pipeline hook" && l.pipelineId == b.id
                                then l.(pipelineStatus := StatusAfter(l, b.status, b.sha),
                                        timeline := l.timeline + TransitionEvents(l, b.id, b.status, b.sha))
                                else l
    {
      ReportTaken(s.ledgers[id], b.id, b.status, b.sha);
      hide HookWrite;
      hide TransitionEvents;
    }
    hide Schemas.Lower;
    assert !(Schemas.Lower(header) == "pipeline hook") ==> s'.ledgers == s.ledgers;
  }

  lemma ReportTaken(l: Ledger, pipelineId: string, status: string, sha: string)
    ensures HookWrite(l, pipelineId, status, sha)
            == l.(pipelineStatus := StatusAfter(l, status, sha),
                  timeline := l.timeline + TransitionEvents(l, pipelineId, status, sha))
  {
  }

  lemma RefusesDelivery(cfg: Config, s: State, body: string, header: string)
    requires !Taken(cfg, s, body)
    ensures Step(cfg, s, Webhook(body, header)) == (s, if |body| > cfg.maxBody then Refused(413)
                                                       else if cfg.sha(body) in s.hooks then HookTaken(true)
                                                       else if cfg.parse(body).NotJson? then Refused(400)
                                                       else Refused(500))
  {
  }

  // ---------------------------------------------------------------- approving

  /** An approval of a verified epoch without one is of the epoch's own fingerprint; it moves any
      state to APPROVED. Of an approved epoch it returns the approval there is. */
  lemma Approves(cfg: Config, s: State, id: string, approver: string)
    ensures var (s', answer) := Step(cfg, s, Approve(id, approver));
            if id !in s.ledgers then s' == s && answer == Refused(404)
            else
              var l := s.ledgers[id];
              if l.pipelineStatus != "success" then s' == s && answer == Refused(409)
              else if l.approval.Some? then s' == s && answer == ApprovalIs(l.approval.value)
              else
                var a := Approval(approver, l.fingerprint);
                && OnlyLedger(s, s', id, l.(state := Approved, approval := Some(a),
                                            timeline := l.timeline + [ApprovalGiven(approver, l.fingerprint)]))
                && answer == ApprovalIs(a)
  {
  }

  // ---------------------------------------------------------------- issuing a capability

  /** An agent's change on a verified pipeline: only then is the policy asked at all. */
  predicate PolicyIsAsked(s: State, id: string, stampedAt: int) {
    && id in s.ledgers && stampedAt <= s.clock
    && s.ledgers[id].change.Some? && s.ledgers[id].change.value.actorType == "ai_agent"
    && s.ledgers[id].pipelineStatus == "success"
  }

  function Ruling(l: Ledger): Policy.PolicyDecision
    requires l.change.Some?
  {
    Policy.EvaluatePolicy(l.change.value.actorType, l.change.value.action, l.identity.environment)
  }

  /** The policy denies, or asks where no approval of this fingerprint is in force. */
  predicate TurnedDown(l: Ledger)
    requires l.change.Some?
  {
    || Ruling(l).decision == Policy.Deny
    || (Ruling(l).decision == Policy.Ask
        && !(l.state == Approved && l.approval.Some? && l.approval.value.fingerprint == l.fingerprint))
  }

  function RulingEvent(l: Ledger): Event
    requires l.change.Some?
  {
    PolicyEvaluated(Ruling(l).decision, Ruling(l).ruleId, l.change.value.action, l.identity.environment)
  }

  /** Before the policy is asked a refusal leaves nothing behind. */
  lemma IssueNotAsked(cfg: Config, s: State, id: string, requester: string, ttl: int, jti: string, stampedAt: int)
    requires !PolicyIsAsked(s, id, stampedAt)
    ensures var (s', answer) := Step(cfg, s, Issue(id, requester, ttl, jti, stampedAt)); s' == s && answer.Refused?
  {
    hide Policy.EvaluatePolicy;
  }

  /** A request that the policy turns down is refused, and its ruling is committed: one event, no
      grant, no identifier taken. */
  lemma IssueTurnedDown(cfg: Config, s: State, id: string, requester: string, ttl: int, jti: string, stampedAt: int)
    requires PolicyIsAsked(s, id, stampedAt) && TurnedDown(s.ledgers[id])
    ensures var (s', answer) := Step(cfg, s, Issue(id, requester, ttl, jti, stampedAt));
            var l := s.ledgers[id];
            && OnlyLedger(s, s', id, l.(timeline := l.timeline + [RulingEvent(l)]))
            && answer == Refused(if Ruling(l).decision == Policy.Deny then 403 else 409)
  {
    hide Policy.EvaluatePolicy;
  }

  /** Whoever asked where the policy asks, and the policy itself where it allows. */
  function IssuedBy(l: Ledger, requester: string): string
    requires l.change.Some?
  {
    if Ruling(l).decision == Policy.Ask then requester else "policy-engine"
  }

  function GrantedScope(id: string, l: Ledger): Scope
    requires l.change.Some?
  {
    Scope(id, l.change.value.actorType, l.change.value.actorId, l.identity.project, l.identity.environment,
          l.change.value.action, l.fingerprint)
  }

  function IssueEvent(l: Ledger, requester: string, g: Grant): Event
    requires l.change.Some?
  {
    CapabilityIssued(g.jti, Ruling(l).decision, IssuedBy(l, requester), g.scope, g.expiresAt)
  }

  function GrantedNow(id: string, l: Ledger, requester: string, ttl: int, jti: string, stampedAt: int): Grant
    requires l.change.Some?
  {
    Grant(jti, GrantedScope(id, l), requester, stampedAt + ttl * 1000000, false)
  }

  /** Otherwise a grant for exactly this epoch, change and fingerprint is added with the ruling and
      the issue as its two events, and answered with a token that opens to its claims. */
  lemma IssueGrants(cfg: Config, s: State, id: string, requester: string, ttl: int, jti: string, stampedAt: int)
    requires PolicyIsAsked(s, id, stampedAt) && !TurnedDown(s.ledgers[id]) && jti != "" && jti !in s.jtis
    ensures var (s', answer) := Step(cfg, s, Issue(id, requester, ttl, jti, stampedAt));
            var l := s.ledgers[id];
            var g := GrantedNow(id, l, requester, ttl, jti, stampedAt);
            && s' == s.(ledgers := s.ledgers[id := l.(
                          grants := l.grants + [g],
                          timeline := l.timeline
                                      + [RulingEvent(l), IssueEvent(l, requester, g)])],
                        jtis := s.jtis + {jti})
            && answer.CapabilityIs? && answer.grant == g
            && (Lawful(cfg.jws) ==>
                  Open(cfg.jws, answer.token)
                  == Some(Claims(1, jti, "epochdeploy-capability", g.scope, stampedAt / 1000000,
                                 g.expiresAt / 1000000)))
  {
    hide Policy.EvaluatePolicy;
    hide Sign;
    hide Open;
    var l := s.ledgers[id];
    var g := GrantedNow(id, l, requester, ttl, jti, stampedAt);
    GrantWritten(id, l, requester, cfg, ttl, jti, stampedAt);
    if Lawful(cfg.jws) {
      OpenSigned(cfg.jws, Claims(1, jti, TYP, g.scope, stampedAt / 1000000, g.expiresAt / 1000000));
    }
    hide Lawful;
    hide IssueWrite;
  }

  lemma GrantWritten(id: string, l: Ledger, requester: string, cfg: Config, ttl: int, jti: string, stampedAt: int)
    requires l.change.Some?
    ensures var g := GrantedNow(id, l, requester, ttl, jti, stampedAt);
            IssueWrite(id, l, Ruling(l), requester, IssueToken(cfg, id, l, ttl, jti, stampedAt))
            == l.(grants := l.grants + [g],
                  timeline := l.timeline
                              + [RulingEvent(l), IssueEvent(l, requester, g)])
  {
    hide Policy.EvaluatePolicy;
    hide Sign;
    var g := GrantedNow(id, l, requester, ttl, jti, stampedAt);
    var issued := IssueEvent(l, requester, g);
    assert l.timeline + [RulingEvent(l)] + [issued] == l.timeline + [RulingEvent(l), issued];
  }

  /** An identifier already taken fails the commit, ruling and all. */
  lemma IssueRepeatedIdentifier(cfg: Config, s: State, id: string, requester: string, ttl: int, jti: string,
                                stampedAt: int)
    requires PolicyIsAsked(s, id, stampedAt) && !TurnedDown(s.ledgers[id]) && (jti == "" || jti in s.jtis)
    ensures Step(cfg, s, Issue(id, requester, ttl, jti, stampedAt)) == (s, Refused(500))
  {
    hide Policy.EvaluatePolicy;
    hide Sign;
  }

  // ---------------------------------------------------------------- targets

  /** A valid observation replaces the row of its own project and environment and no other, and
      reaches the Go executor now or stays undelivered. */
  lemma Observes(cfg: Config, s: State, raw: Identity, delivered: bool)
    ensures var (s', answer) := Step(cfg, s, Observe(raw, delivered));
            match Schemas.ParseIdentity(raw)
            case None => s' == s && answer == Refused(422)
            case Some(v) => Committed(cfg, s, s', v, delivered)
                            && answer == if cfg.mode == GoBoundary && !delivered then Refused(502) else Done
  {
    hide Schemas.ParseIdentity;
    hide Boundary.TargetKey;
  }

  ghost predicate Committed(cfg: Config, s: State, s': State, v: Identity, delivered: bool) {
    s' == s.(live := s.live[(v.project, v.environment) := v],
             store := if cfg.mode == GoBoundary && delivered then s.store[Boundary.TargetKey(v) := v] else s.store,
             undelivered := if cfg.mode == GoBoundary && !delivered then s.undelivered + multiset{v} else s.undelivered)
  }

  /** A drift changes one content field of the epoch's target row to the given text. */
  lemma Drifts(cfg: Config, s: State, id: string, f: Field, value: string, delivered: bool)
    ensures var (s', answer) := Step(cfg, s, Drift(id, f, value, delivered));
            var text := Schemas.ParseText(value, 1, 256);
            if text.None? then s' == s && answer == Refused(422)
            else if id !in s.ledgers then s' == s && answer == Refused(404)
            else if f !in [CommitSha, ArtifactDigest, ConfigHash] then s' == s && answer == Refused(400)
            else
              var name := (s.ledgers[id].identity.project, s.ledgers[id].identity.environment);
              if name !in s.live then s' == s && answer == Refused(409)
              else
                var row := s.live[name];
                var v := match f
                         case CommitSha => row.(commitSha := text.value)
                         case ArtifactDigest => row.(artifactDigest := text.value)
                         case _ => row.(configHash := text.value);
                Committed(cfg, s, s', v, delivered)
                && answer == if cfg.mode == GoBoundary && !delivered then Refused(502) else Done
  {
    hide Schemas.ParseText;
    hide Boundary.TargetKey;
  }

  /** The remaining requests: a late delivery, evidence, time, and a restart of the executor. */
  lemma DoesTheRest(cfg: Config, s: State, v: Identity, id: string, kind: string, digest: string, micros: nat)
    ensures Step(cfg, s, Deliver(v))
            == if v in s.undelivered
               then (s.(store := s.store[Boundary.TargetKey(v) := v], undelivered := s.undelivered - multiset{v}), Done)
               else (s, Refused(400))
    ensures var (s', answer) := Step(cfg, s, AttachEvidence(id, kind, digest));
            if id in s.ledgers
            then OnlyLedger(s, s', id,
                            s.ledgers[id].(timeline := s.ledgers[id].timeline + [EvidenceAttached(kind, digest)]))
                 && answer == Done
            else s' == s && answer == Refused(404)
    ensures Step(cfg, s, Tick(micros)) == (s.(clock := s.clock + micros), Done)
    ensures Step(cfg, s, RestartExecutor) == (s.(store := map[]), Done)
  {
    hide Boundary.TargetKey;
  }

  // ---------------------------------------------------------------- executing

  /** What the executor answers: in process the comparison with the database's row, through Go with
      the target it holds; an agent's token is checked again. */
  function AnswerOf(cfg: Config, s: State, l: Ledger, ctx: Option<Context>): Option<Result>
    requires (l.identity.project, l.identity.environment) in s.live
  {
    match cfg.mode
    case InProcess =>
      if AgentRefusedLocally(cfg, l, ctx, s.clock) then None
      else Some(LocalCompare(cfg.sha, l.identity, s.live[(l.identity.project, l.identity.environment)]))
    case GoBoundary =>
      if AgentRefusedByGo(cfg, l, ctx, s.clock) || Boundary.TargetKey(l.identity) !in s.store then None
      else Some(GoCompare(cfg.sha, l.identity, s.store[Boundary.TargetKey(l.identity)]))
  }

  predicate AgentRefusedLocally(cfg: Config, l: Ledger, ctx: Option<Context>, now: int) {
    && ctx.Some? && ctx.value.actorType == "ai_agent"
    && !PyVerify(cfg.jws, ctx.value.token,
                 Scope(ctx.value.epochId, "ai_agent", ctx.value.actorId, l.identity.project, l.identity.environment,
                       ctx.value.action, ctx.value.approvedFingerprint), now).Accepted?
  }

  predicate AgentRefusedByGo(cfg: Config, l: Ledger, ctx: Option<Context>, now: int) {
    && ctx.Some? && ctx.value.actorType == "ai_agent"
    && var fp := Fingerprint(Go, cfg.sha, l.identity);
    !(&& ctx.value.action == "deploy" && ctx.value.token != "" && ctx.value.approvedFingerprint == fp
      && GoVerify(cfg.jws, ctx.value.token,
                  Scope(ctx.value.epochId, "ai_agent", ctx.value.actorId, l.identity.project, l.identity.environment,
                        "deploy", fp), now).Accepted?)
  }

  /** The row after an execution. */
  function LedgerAfter(id: string, l: Ledger, key: string, r: Result): Ledger {
    l.(state := Ended(r.outcome),
       receipts := l.receipts + [Receipt(key, l.fingerprint, r)],
       outbox := l.outbox + [OutboxEntry(id, r.outcome, l.fingerprint, r.observedFingerprint)],
       timeline := l.timeline + [OutcomeRecorded(l.fingerprint, r)])
  }

  /** The policy lets this agent run without an approval. */
  predicate OnItsOwn(ctx: Option<Context>) {
    ctx.Some? && ctx.value.actorType == "ai_agent" && ctx.value.policyDecision == Policy.Allow
  }

  /** The epoch may be executed: approved as it is, or for an agent on its own also from DRAFT. */
  predicate ExecutionOpen(l: Ledger, ctx: Option<Context>) {
    if OnItsOwn(ctx) then l.state == Approved || l.state == Draft
    else l.state == Approved && l.approval.Some? && l.approval.value.fingerprint == l.fingerprint
  }

  ghost predicate ExecutionEffect(cfg: Config, s: State, s': State, answer: Response, id: string, ctx: Option<Context>,
                                  key: string, reachable: bool)
    requires id in s.ledgers
  {
    var l := s.ledgers[id];
    && (forall r :: r in l.receipts && r.key == key ==> s' == s && answer == ReceiptIs(r))
    && ((forall r :: r in l.receipts ==> r.key != key) ==>
          if !ExecutionOpen(l, ctx) || (l.identity.project, l.identity.environment) !in s.live
          then s' == s && answer == Refused(409)
          else if !reachable || AnswerOf(cfg, s, l, ctx).None? then s' == s && answer == Refused(502)
          else
            var r := AnswerOf(cfg, s, l, ctx).value;
            OnlyLedger(s, s', id, LedgerAfter(id, l, key, r)) && answer == ReceiptIs(Receipt(key, l.fingerprint, r)))
  }

  lemma AnswerIs(cfg: Config, s: State, l: Ledger, ctx: Option<Context>)
    requires (l.identity.project, l.identity.environment) in s.live
    ensures CallExecutor(cfg, s.store, l.identity, s.live[(l.identity.project, l.identity.environment)], ctx, s.clock)
            == AnswerOf(cfg, s, l, ctx)
  {
    hide Fingerprint;
    hide PyVerify;
    hide GoVerify;
    hide LocalCompare;
    hide GoCompare;
    hide Boundary.TargetKey;
  }

  lemma DecidesAs(l: Ledger, ctx: Option<Context>, key: string, live: Option<Identity>)
    requires KeysUnique(l)
    ensures forall r :: r in l.receipts && r.key == key ==> ExecDecide(l, ctx, key, live) == Replayed(r)
    ensures (forall r :: r in l.receipts ==> r.key != key) ==>
              ExecDecide(l, ctx, key, live)
              == if !ExecutionOpen(l, ctx) || live == None then ExecRefused(409) else Proceed(live.value)
  {
    FindReceiptFinds(l.receipts, key);
    forall r | r in l.receipts && r.key == key
      ensures FindReceipt(l.receipts, key) == Some(r)
    {
      var k :| 0 <= k < |l.receipts| && l.receipts[k] == r;
      FindReceiptIs(l.receipts, k);
    }
    hide FindReceipt;
  }

  lemma {:induction false} FindReceiptIs(receipts: seq<Receipt>, k: nat)
    requires k < |receipts| && forall i, j :: 0 <= i < j < |receipts| ==> receipts[i].key != receipts[j].key
    ensures FindReceipt(receipts, receipts[k].key) == Some(receipts[k])
  {
    if k > 0 {
      assert receipts[1..][k - 1] == receipts[k];
      FindReceiptIs(receipts[1..], k - 1);
    }
  }

  lemma EpochExecutes(cfg: Config, s: State, id: string, ctx: Option<Context>, key: string, reachable: bool)
    requires id in s.ledgers && KeysUnique(s.ledgers[id])
    ensures var (s', answer) := StepExecuteEpoch(cfg, s, id, ctx, key, reachable);
            ExecutionEffect(cfg, s, s', answer, id, ctx, key, reachable)
  {
    hide CallExecutor;
    hide AnswerOf;
    hide ExecutionOpen;
    hide ExecDecide;
    var l := s.ledgers[id];
    DecidesAs(l, ctx, key, LiveOf(s, l.identity));
    hide KeysUnique;
    if (l.identity.project, l.identity.environment) in s.live {
      AnswerIs(cfg, s, l, ctx);
    }
  }

  /** A person's execution. A used key answers with its receipt and changes nothing; otherwise the
      epoch has to be approved as it is, its target known, and the executor to answer; then one
      receipt, one outbox entry and one event record the answer and end the epoch. */
  lemma Executes(cfg: Config, s: State, id: string, key: string, reachable: bool)
    requires id in s.ledgers ==> KeysUnique(s.ledgers[id])
    ensures var (s', answer) := Step(cfg, s, Execute(id, key, reachable));
            if id !in s.ledgers then s' == s && answer == Refused(404)
            else ExecutionEffect(cfg, s, s', answer, id, None, key, reachable)
  {
    hide StepExecuteEpoch;
    hide ExecutionEffect;
    hide KeysUnique;
    if id in s.ledgers {
      EpochExecutes(cfg, s, id, None, key, reachable);
    }
  }

  /** An agent is admitted with this token now: its change is an agent's, the token opens to claims
      of the supported kind for exactly this epoch, actor, project, environment, action and
      fingerprint, issued by now and unexpired, its grant is the epoch's, unrevoked and unexpired,
      and the policy does not deny. */
  ghost predicate Admissible(cfg: Config, id: string, l: Ledger, token: string, at: int) {
    && l.change.Some? && l.change.value.actorType == "ai_agent"
    && Open(cfg.jws, token).Some?
    && var c := Open(cfg.jws, token).value;
    && c.ver == 1 && c.typ == "epochdeploy-capability" && c.jti != "" && c.scope == GrantedScope(id, l)
    && c.iat * 1000000 <= at < c.exp * 1000000
    && (exists g :: g in l.grants && g.jti == c.jti && !g.revoked && at < g.expiresAt)
    && Ruling(l).decision != Policy.Deny
  }

  ghost predicate IdsUnique(l: Ledger) {
    forall i, j :: 0 <= i < j < |l.grants| ==> l.grants[i].jti != l.grants[j].jti
  }

  lemma {:induction false} FindGrantIs(grants: seq<Grant>, g: Grant)
    requires g in grants && forall i, j :: 0 <= i < j < |grants| ==> grants[i].jti != grants[j].jti
    ensures FindGrant(grants, g.jti) == Some(g)
  {
    if grants[0].jti == g.jti {
      var k :| 0 <= k < |grants| && grants[k] == g;
      assert k == 0;
    } else {
      assert g in grants[1..];
      FindGrantIs(grants[1..], g);
    }
  }

  lemma AdmitsExactly(cfg: Config, id: string, l: Ledger, token: string, at: int)
    requires IdsUnique(l)
    ensures Admit(cfg, id, l, token, at).Admitted? <==> Admissible(cfg, id, l, token, at)
    ensures Admissible(cfg, id, l, token, at) ==>
              Admit(cfg, id, l, token, at)
              == Admitted(Context(id, "ai_agent", l.change.value.actorId, l.change.value.action, l.fingerprint, token,
                                  Ruling(l).decision, Ruling(l).ruleId))
  {
    hide Policy.EvaluatePolicy;
    hide Open;
    if l.change.Some? && l.change.value.actorType == "ai_agent" {
      var scope := ScopeOf(id, l);
      if Open(cfg.jws, token).Some? {
        AcceptedExactly(cfg.jws, token, scope, at, Open(cfg.jws, token).value);
      }
      var v := PyVerify(cfg.jws, token, scope, at);
      if v.Accepted? {
        AcceptedExactly(cfg.jws, token, scope, at, v.claims);
        FindGrantFinds(l.grants, v.claims.jti);
        forall g | g in l.grants && g.jti == v.claims.jti
          ensures FindGrant(l.grants, v.claims.jti) == Some(g)
        {
          FindGrantIs(l.grants, g);
        }
      }
      hide PyVerify;
      hide FindGrant;
    }
  }

  /** An agent's execution: refused without a trace unless admitted; then an execution in the name
      of the change, with the policy's ruling. */
  lemma AgentExecutes(cfg: Config, s: State, id: string, key: string, token: string, admittedAt: int, reachable: bool)
    requires id in s.ledgers ==> KeysUnique(s.ledgers[id]) && IdsUnique(s.ledgers[id])
    ensures var (s', answer) := Step(cfg, s, Request.ExecuteAgent(id, key, token, admittedAt, reachable));
            if id !in s.ledgers then s' == s && answer == Refused(404)
            else if admittedAt > s.clock || !Admissible(cfg, id, s.ledgers[id], token, admittedAt)
            then s' == s && answer.Refused?
            else
              var l := s.ledgers[id];
              ExecutionEffect(cfg, s, s', answer, id,
                              Some(Context(id, "ai_agent", l.change.value.actorId, l.change.value.action, l.fingerprint,
                                           token, Ruling(l).decision, Ruling(l).ruleId)),
                              key, reachable)
  {
    hide StepExecuteEpoch;
    hide ExecutionEffect;
    hide KeysUnique;
    hide IdsUnique;
    hide Admit;
    hide Admissible;
    hide Ruling;
    if id in s.ledgers {
      AdmitsExactly(cfg, id, s.ledgers[id], token, admittedAt);
      var a := Admit(cfg, id, s.ledgers[id], token, admittedAt);
      if a.Admitted? {
        EpochExecutes(cfg, s, id, Some(a.context), key, reachable);
      }
    }
  }

  /** In every run no two receipts of an epoch share a key and no two grants an identifier. */
  lemma RunsQualify(cfg: Config, rs: seq<Request>, id: string)
    requires id in Run(cfg, START, rs).ledgers
    ensures KeysUnique(Run(cfg, START, rs).ledgers[id]) && IdsUnique(Run(cfg, START, rs).ledgers[id])
  {
    hide Run;
    hide LedgerInv;
    var s := Run(cfg, START, rs);
    RunKeepsInv(cfg, rs);
    RunKeepsGrantIds(cfg, rs);
    KeysOfInv(cfg, id, s.ledgers[id]);
    hide KeysUnique;
    forall i, j | 0 <= i < j < |s.ledgers[id].grants|
      ensures s.ledgers[id].grants[i].jti != s.ledgers[id].grants[j].jti
    {
      assert HoldsGrant(s, id, i, s.ledgers[id].grants[i].jti) && HoldsGrant(s, id, j, s.ledgers[id].grants[j].jti);
    }
  }

  lemma KeysOfInv(cfg: Config, id: string, l: Ledger)
    requires LedgerInv(cfg, id, l)
    ensures KeysUnique(l)
  {
    hide KeysUnique;
  }
}
