/** The orchestrator's service operations as they run: rows updated in place, loops over rows and
    fields, refusals that commit and refusals that do not (orchestrator/app/services.py, main.py,
    governance.py). Each is proved to be the corresponding step of the workflow. */
module Services {
  import opened Text
  import opened Identities
  import opened Comparison
  import opened Capability
  import opened Ledgers
  import opened Workflow
  import opened Invariants
  import Boundary
  import Policy
  import Schemas

  /** What a report on a pipeline does to one epoch: those of other pipelines are not selected. */
  function Reported(l: Ledger, id: string, status: string, sha: string): Ledger {
    if l.pipelineId == id then HookWrite(l, id, status, sha) else l
  }

  /** A deployment epoch with the rows that refer to it (models.py). */
  class EpochRecord {
    const identity: Identity
    const pipelineId: string
    const fingerprint: string
    const createdBy: string
    var pipelineStatus: string
    var state: EpochState
    var approval: Option<Approval>
    var change: Option<Change>
    var grants: seq<Grant>
    var receipts: seq<Receipt>
    var outbox: seq<OutboxEntry>
    var timeline: seq<Event>

    function View(): Ledger
      reads this
    {
      Ledger(identity, pipelineId, fingerprint, createdBy, pipelineStatus, state, approval, change, grants, receipts,
             outbox, timeline)
    }

    constructor (v: Identity, pipelineId: string, fingerprint: string, requester: string)
      ensures View() == Ledger(v, pipelineId, fingerprint, requester, "pending", Draft, None, None, [], [], [], [])
    {
      this.identity, this.pipelineId, this.fingerprint, createdBy := v, pipelineId, fingerprint, requester;
      pipelineStatus, state, approval, change := "pending", Draft, None, None;
      grants, receipts, outbox, timeline := [], [], [], [];
    }

    method RecordEvent(e: Event)
      modifies this`timeline
      ensures View() == Record(old(View()), e)
    {
      timeline := timeline + [e];
    }

    /** The webhook loop's body for this row. */
    method TakeStatus(id: string, status: string, sha: string)
      modifies this`pipelineStatus, this`timeline
      ensures View() == HookWrite(old(View()), id, status, sha)
    {
      var previous := pipelineStatus;
      pipelineStatus := if sha == identity.commitSha then status else SHA_MISMATCH;
      if pipelineStatus == SUCCESS && previous != SUCCESS {
        RecordEvent(PipelineVerified(id, sha));
      } else if pipelineStatus == SHA_MISMATCH && previous != SHA_MISMATCH {
        RecordEvent(PipelineRejected(id, sha, identity.commitSha));
      }
    }

    /** The loop's query and body: a row of another pipeline is left alone. */
    method TakeReport(id: string, status: string, sha: string)
      modifies this`pipelineStatus, this`timeline
      ensures View() == Reported(old(View()), id, status, sha)
    {
      if pipelineId == id {
        TakeStatus(id, status, sha);
      }
    }

    method SearchReceipt(key: string) returns (receipt: Option<Receipt>)
      ensures receipt == FindReceipt(receipts, key)
    {
      for i := 0 to |receipts|
        invariant FindReceipt(receipts, key) == FindReceipt(receipts[i..], key)
      {
        if receipts[i].key == key {
          return Some(receipts[i]);
        }
      }
      return None;
    }

    method SearchGrant(jti: string) returns (grant: Option<Grant>)
      ensures grant == FindGrant(grants, jti)
    {
      for i := 0 to |grants|
        invariant FindGrant(grants, jti) == FindGrant(grants[i..], jti)
      {
        if grants[i].jti == jti {
          return Some(grants[i]);
        }
      }
      return None;
    }
  }

  // ---------------------------------------------------------------- loops that change nothing

  function Joined(chunks: seq<string>): string {
    if chunks == [] then "" else Joined(chunks[..|chunks| - 1]) + chunks[|chunks| - 1]
  }

  /** The chunks one after the other, each as it came. */
  lemma {:induction false} JoinedInOrder(a: seq<string>, b: seq<string>)
    ensures Joined(a + b) == Joined(a) + Joined(b)
  {
    if b == [] {
      assert a + b == a;
    } else {
      assert (a + b)[..|a + b| - 1] == a + b[..|b| - 1];
      JoinedInOrder(a, b[..|b| - 1]);
    }
  }

  lemma JoinedOne(chunk: string)
    ensures Joined([chunk]) == chunk
  {
    assert [chunk][..0] == [];
  }

  lemma {:induction false} JoinedPrefix(chunks: seq<string>, i: nat)
    requires i <= |chunks|
    ensures Joined(chunks[..i]) <= Joined(chunks)
  {
    if i < |chunks| {
      JoinedPrefix(chunks[..|chunks| - 1], i);
      assert chunks[..|chunks| - 1][..i] == chunks[..i];
    } else {
      assert chunks[..i] == chunks;
    }
  }

  /** The request body is read chunk by chunk and given up as soon as it is too long: exactly the
      bodies within the limit come through, however they were cut up. */
  method ReadBody(chunks: seq<string>, limit: nat) returns (body: Option<string>)
    ensures body == if |Joined(chunks)| <= limit then Some(Joined(chunks)) else None
  {
    var buffer := "";
    for i := 0 to |chunks|
      invariant buffer == Joined(chunks[..i]) && |buffer| <= limit
    {
      assert chunks[..i + 1][..i] == chunks[..i];
      buffer := buffer + chunks[i];
      if |buffer| > limit {
        JoinedPrefix(chunks, i + 1);
        return None;
      }
    }
    assert chunks[..|chunks|] == chunks;
    return Some(buffer);
  }

  /** `upsert_target` copies the payload into the row attribute by attribute. */
  method CopyFields(row: Identity, payload: Identity) returns (copied: Identity)
    ensures copied == payload
  {
    copied := row;
    for i := 0 to |FIELDS|
      invariant forall j :: 0 <= j < i ==> Get(copied, FIELDS[j]) == Get(payload, FIELDS[j])
    {
      copied := Set(copied, FIELDS[i], Get(payload, FIELDS[i]));
    }
    assert Get(copied, FIELDS[0]) == Get(payload, FIELDS[0]) && Get(copied, FIELDS[1]) == Get(payload, FIELDS[1])
           && Get(copied, FIELDS[2]) == Get(payload, FIELDS[2]) && Get(copied, FIELDS[3]) == Get(payload, FIELDS[3])
           && Get(copied, FIELDS[4]) == Get(payload, FIELDS[4]);
  }

  lemma TickStep(cfg: Config, s: State, micros: nat)
    ensures Step(cfg, s, Tick(micros)) == (s.(clock := s.clock + micros), Done)
  {
  }

  lemma DeliverStep(cfg: Config, s: State, v: Identity)
    ensures Step(cfg, s, Deliver(v)) == StepDeliver(s, v)
  {
  }

  // ---------------------------------------------------------------- the service

  class Orchestrator {
    const cfg: Config
    const executor: Boundary.TargetStore
    var epochs: map<string, EpochRecord>
    var live: map<TargetName, Identity>
    var hooks: set<string>
    var jtis: set<string>
    var clock: int
    /** Committed updates of targets that the executor has not heard of. */
    ghost var undelivered: multiset<Identity>
    /** The requests served so far. */
    ghost var served: seq<Request>

    /** The state of the workflow that the rows stand for. */
    ghost function View(): State
      reads this, executor, epochs.Values
    {
      State(map id | id in epochs :: epochs[id].View(), live, executor.targets, undelivered, hooks, jtis, clock)
    }

    ghost predicate Distinct()
      reads this
    {
      forall a, b :: a in epochs && b in epochs && a != b ==> epochs[a] != epochs[b]
    }

    /** Every epoch has its own record, and the state is that of a run of the workflow. */
    ghost predicate Valid()
      reads this, executor, epochs.Values
    {
      Distinct() && View() == Run(cfg, START, served)
    }

    constructor (cfg: Config)
      ensures Valid() && fresh(executor) && this.cfg == cfg && served == [] && epochs == map[]
    {
      this.cfg := cfg;
      executor := new Boundary.TargetStore();
      epochs, live, hooks, jtis, clock := map[], map[], {}, {}, 0;
      undelivered, served := multiset{}, [];
    }

    /** The request was served as a step of the workflow: new state and response. */
    twostate predicate Answers(r: Request, response: Response)
      reads this, executor, epochs.Values
    {
      && Valid() && served == old(served) + [r]
      && (View(), response) == Step(cfg, old(View()), r)
    }

    /** Bookkeeping of a served request. */
    ghost method Serve(r: Request, before: State, response: Response)
      requires Distinct() && before == Run(cfg, START, served)
      requires (View(), response) == Step(cfg, before, r)
      modifies this`served
      ensures Valid() && served == old(served) + [r] && View() == old(View())
    {
      hide Step;
      served := served + [r];
      assert served[..|served| - 1] == old(served);
    }

    /** Writing one epoch's record changes one ledger of the view. */
    twostate lemma OneLedger(id: string)
      requires id in epochs && Distinct() && epochs == old(epochs)
      requires live == old(live) && undelivered == old(undelivered) && hooks == old(hooks) && clock == old(clock)
               && unchanged(executor)
      requires forall other :: other in epochs && other != id ==> unchanged(epochs[other])
      ensures View() == SetLedger(old(View()), id, epochs[id].View()).(jtis := jtis)
    {
    }

    twostate lemma NoLedger()
      requires epochs == old(epochs) && forall id :: id in epochs ==> unchanged(epochs[id])
      ensures View().ledgers == old(View()).ledgers
    {
    }

    method CreateEpoch(id: string, raw: Identity, rawPipeline: string, requester: string) returns (response: Response)
      requires Valid()
      modifies this`epochs, this`served
      ensures Answers(Request.CreateEpoch(id, raw, rawPipeline, requester), response)
      ensures forall other :: other in old(epochs) ==> other in epochs && epochs[other] == old(epochs[other])
      ensures fresh(epochs.Values - old(epochs.Values))
    {
      hide Schemas.ParseIdentity;
      hide Schemas.ParseText;
      hide InsertEpoch;
      hide Run;
      var v := Schemas.ParseIdentity(raw);
      var p := Schemas.ParseText(rawPipeline, 1, 80);
      response := InsertRow(id, v, p, requester);
      Serve(Request.CreateEpoch(id, raw, rawPipeline, requester), old(View()), response);
    }

    method InsertRow(id: string, v: Option<Identity>, p: Option<string>, requester: string) returns (response: Response)
      requires Distinct()
      modifies this`epochs
      ensures Distinct() && (View(), response) == InsertEpoch(cfg, old(View()), id, v, p, requester)
      ensures forall other :: other in old(epochs) ==> other in epochs && epochs[other] == old(epochs[other])
      ensures fresh(epochs.Values - old(epochs.Values))
    {
      hide NewLedger;
      if v.None? || p.None? {
        return Refused(422);
      }
      if id in epochs {
        return Refused(500);
      }
      var row := NewRow(v.value, p.value, requester);
      epochs := epochs[id := row];
      AddedLedger(id);
      return Done;
    }

    method NewRow(v: Identity, pipelineId: string, requester: string) returns (row: EpochRecord)
      ensures fresh(row) && row.View() == NewLedger(cfg.sha, v, pipelineId, requester)
    {
      hide Fingerprint;
      var fp := Fingerprint(Python, cfg.sha, v);
      row := new EpochRecord(v, pipelineId, fp, requester);
      row.RecordEvent(EpochCreated(fp, pipelineId));
    }

    twostate lemma AddedLedger(id: string)
      requires old(Distinct()) && id !in old(epochs) && id in epochs && fresh(epochs[id])
               && epochs == old(epochs)[id := epochs[id]]
      requires live == old(live) && undelivered == old(undelivered) && hooks == old(hooks) && jtis == old(jtis)
               && clock == old(clock) && unchanged(executor)
      requires forall other :: other in old(epochs) ==> unchanged(old(epochs)[other])
      ensures Distinct() && View() == SetLedger(old(View()), id, epochs[id].View())
    {
      assert View().ledgers == old(View()).ledgers[id := epochs[id].View()];
    }

    method CreateChangeRequest(id: string, c: Change) returns (response: Response)
      requires Valid()
      modifies this`served, epochs.Values
      ensures Answers(RequestChange(id, c), response)
    {
      hide Run;
      if !Schemas.IsAction(c.action) || c.actorType != Policy.AGENT {
        response := Refused(422);
      } else if id !in epochs || epochs[id].change.Some? {
        response := Refused(500);
      } else {
        epochs[id].change := Some(c);
        epochs[id].RecordEvent(ChangeRequested(c));
        OneLedger(id);
        response := Done;
      }
      Serve(RequestChange(id, c), old(View()), response);
    }

    method ApproveEpoch(id: string, approver: string) returns (response: Response)
      requires Valid()
      modifies this`served, epochs.Values
      ensures Answers(Approve(id, approver), response)
    {
      hide Run;
      hide ApproveDecide;
      hide ApproveWrite;
      if id !in epochs {
        response := Refused(404);
      } else {
        response := ApproveLocked(id, approver);
      }
      Serve(Approve(id, approver), old(View()), response);
    }

    method ApproveLocked(id: string, approver: string) returns (response: Response)
      requires Distinct() && id in epochs
      modifies epochs.Values
      ensures Distinct() && (View(), response) == StepApprove(old(View()), id, approver)
    {
      var locked := epochs[id];
      if locked.pipelineStatus != SUCCESS {
        return Refused(409);
      }
      if locked.approval.Some? {
        return ApprovalIs(locked.approval.value);
      }
      var approval := Approval(approver, locked.fingerprint);
      locked.state := Approved;
      locked.approval := Some(approval);
      locked.RecordEvent(ApprovalGiven(approver, locked.fingerprint));
      OneLedger(id);
      return ApprovalIs(approval);
    }

    /** Events join the session as they are recorded and reach the timeline at a commit: the two
        refusals after the policy was evaluated commit its event, the others leave no trace. */
    method IssueExecutionCapability(id: string, requester: string, ttl: int, jti: string) returns (response: Response)
      requires Valid()
      modifies this`jtis, this`served, epochs.Values
      ensures Answers(Issue(id, requester, ttl, jti, old(clock)), response)
    {
      hide Run;
      hide Policy.EvaluatePolicy;
      if id !in epochs {
        response := Refused(404);
      } else {
        response := IssueLocked(id, requester, ttl, jti);
      }
      Serve(Issue(id, requester, ttl, jti, clock), old(View()), response);
    }

    method IssueLocked(id: string, requester: string, ttl: int, jti: string) returns (response: Response)
      requires Distinct() && id in epochs
      modifies this`jtis, epochs.Values
      ensures Distinct() && (View(), response) == StepIssue(cfg, old(View()), id, requester, ttl, jti, clock)
    {
      hide Policy.EvaluatePolicy;
      hide IssueCapability;
      hide CommitGrant;
      var locked := epochs[id];
      if locked.change.None? || locked.change.value.actorType != Policy.AGENT {
        return Refused(409);
      }
      if locked.pipelineStatus != SUCCESS {
        return Refused(409);
      }
      var change := locked.change.value;
      var d := Policy.EvaluatePolicy(change.actorType, change.action, locked.identity.environment);
      var session := [PolicyEvaluated(d.decision, d.ruleId, change.action, locked.identity.environment)];
      if d.decision == Policy.Deny {
        CommitNote(id, d, session);
        return Refused(403);
      }
      if d.decision == Policy.Ask {
        if locked.state != Approved || locked.approval.None?
          || locked.approval.value.fingerprint != locked.fingerprint {
          CommitNote(id, d, session);
          return Refused(409);
        }
      }
      var scope := Scope(id, change.actorType, change.actorId, locked.identity.project, locked.identity.environment,
                         change.action, locked.fingerprint);
      var i := IssueCapability(cfg.jws, scope, ttl, clock, jti);
      assert IssueDecide(locked.View()) == IssueGranted(d) && i == IssueToken(cfg, id, locked.View(), ttl, jti, clock);
      response := CommitCapability(id, requester, d, session, scope, i);
    }

    /** The policy event alone is committed. */
    method CommitNote(id: string, d: Policy.PolicyDecision, session: seq<Event>)
      requires Distinct() && id in epochs && epochs[id].change.Some?
      requires epochs[id].timeline + session == NotePolicy(epochs[id].View(), d).timeline
      modifies epochs.Values
      ensures Distinct() && View() == SetLedger(old(View()), id, NotePolicy(old(epochs[id].View()), d))
    {
      epochs[id].timeline := epochs[id].timeline + session;
      OneLedger(id);
    }

    method CommitCapability(id: string, requester: string, d: Policy.PolicyDecision, session: seq<Event>,
                            scope: Scope, i: Issued)
        returns (response: Response)
      requires Distinct() && id in epochs && epochs[id].change.Some? && scope == ScopeOf(id, epochs[id].View())
      requires epochs[id].timeline + session == NotePolicy(epochs[id].View(), d).timeline
      modifies this`jtis, epochs.Values
      ensures Distinct() && (View(), response) == CommitGrant(old(View()), id, requester, d, i)
    {
      var locked := epochs[id];
      if i.jti == "" || i.jti in jtis {
        return Refused(500);
      }
      var grant := Grant(i.jti, scope, requester, i.expiresAt, false);
      var issued := CapabilityIssued(i.jti, d.decision, if d.decision == Policy.Ask then requester else "policy-engine",
                                     scope, i.expiresAt);
      locked.grants := locked.grants + [grant];
      locked.timeline := locked.timeline + (session + [issued]);
      jtis := jtis + {i.jti};
      assert locked.timeline == (old(locked.timeline) + session) + [issued];
      OneLedger(id);
      return CapabilityIs(i.token, grant);
    }

    /** The executor behind the configured client. The remote one is asked with the expected
        release only and compares with the target it holds itself. */
    method CallClient(expected: Identity, observed: Identity, ctx: Option<Context>,
                      reachable: bool) returns (r: Option<Result>)
      ensures r == if reachable then CallExecutor(cfg, executor.targets, expected, observed, ctx, clock) else None
    {
      if !reachable {
        return None;
      }
      match cfg.mode
      case InProcess => r := Boundary.LocalExecute(cfg.jws, cfg.sha, expected, observed, ctx, clock);
      case GoBoundary => r := executor.Execute(cfg.jws, cfg.sha, expected, ctx, clock);
    }

    /** The checks of `execute_epoch` under the row lock, in order. */
    method DecideExecution(id: string, ctx: Option<Context>, key: string) returns (d: ExecDecision)
      requires id in epochs
      ensures d == ExecDecide(epochs[id].View(), ctx, key, LiveOf(View(), epochs[id].identity))
    {
      var locked := epochs[id];
      var existing := locked.SearchReceipt(key);
      if existing.Some? {
        return Replayed(existing.value);
      }
      var allowed := ctx.Some? && ctx.value.actorType == Policy.AGENT && ctx.value.policyDecision == Policy.Allow;
      if locked.state != Approved && !(allowed && locked.state == Draft) {
        return ExecRefused(409);
      }
      if !allowed {
        if locked.approval.None? || locked.approval.value.fingerprint != locked.fingerprint {
          return ExecRefused(409);
        }
      }
      var name := (locked.identity.project, locked.identity.environment);
      if name !in live {
        return ExecRefused(409);
      }
      return Proceed(live[name]);
    }

    method ExecuteEpoch(id: string, ctx: Option<Context>, key: string, reachable: bool) returns (response: Response)
      requires Distinct() && id in epochs
      modifies epochs.Values
      ensures Distinct() && (View(), response) == StepExecuteEpoch(cfg, old(View()), id, ctx, key, reachable)
    {
      hide CallExecutor;
      hide ExecDecide;
      hide CommitReceipt;
      var d := DecideExecution(id, ctx, key);
      match d
      case Replayed(receipt) => return ReceiptIs(receipt);
      case ExecRefused(status) => return Refused(status);
      case Proceed(observed) =>
        var answer := CallClient(epochs[id].identity, observed, ctx, reachable);
        response := Answered(id, key, answer);
    }

    method Answered(id: string, key: string, answer: Option<Result>) returns (response: Response)
      requires Distinct() && id in epochs
      modifies epochs.Values
      ensures Distinct() && (View(), response) == CommitReceipt(old(View()), id, key, answer)
    {
      if answer.None? {
        return Refused(502);
      }
      response := WriteReceipt(id, key, answer.value);
    }

    method WriteReceipt(id: string, key: string, r: Result) returns (response: Response)
      requires Distinct() && id in epochs
      modifies epochs.Values
      ensures Distinct() && (View(), response) == CommitReceipt(old(View()), id, key, Some(r))
    {
      var locked := epochs[id];
      var receipt := Receipt(key, locked.fingerprint, r);
      locked.state := Ended(r.outcome);
      locked.receipts := locked.receipts + [receipt];
      locked.outbox := locked.outbox + [OutboxEntry(id, r.outcome, locked.fingerprint, r.observedFingerprint)];
      locked.RecordEvent(OutcomeRecorded(locked.fingerprint, r));
      OneLedger(id);
      return ReceiptIs(receipt);
    }

    method ExecuteByHuman(id: string, key: string, reachable: bool) returns (response: Response)
      requires Valid()
      modifies this`served, epochs.Values
      ensures Answers(Execute(id, key, reachable), response)
    {
      hide Run;
      hide StepExecuteEpoch;
      if id !in epochs {
        response := Refused(404);
      } else {
        response := ExecuteEpoch(id, None, key, reachable);
      }
      Serve(Execute(id, key, reachable), old(View()), response);
    }

    /** `execute_agent_epoch` before it hands over to `execute_epoch`. */
    method AdmitAgent(id: string, token: string) returns (admission: Admission)
      requires id in epochs
      ensures admission == Admit(cfg, id, epochs[id].View(), token, clock)
    {
      hide PyVerify;
      hide Policy.EvaluatePolicy;
      var epoch := epochs[id];
      if epoch.change.None? || epoch.change.value.actorType != Policy.AGENT {
        return NotAdmitted(409);
      }
      var change := epoch.change.value;
      var scope := Scope(id, change.actorType, change.actorId, epoch.identity.project, epoch.identity.environment,
                         change.action, epoch.fingerprint);
      var verdict := PyVerify(cfg.jws, token, scope, clock);
      if verdict.Rejected? {
        return NotAdmitted(403);
      }
      var grant := epoch.SearchGrant(verdict.claims.jti);
      if grant.None? || grant.value.revoked || grant.value.expiresAt <= clock {
        return NotAdmitted(403);
      }
      var d := Policy.EvaluatePolicy(change.actorType, change.action, epoch.identity.environment);
      if d.decision == Policy.Deny {
        return NotAdmitted(403);
      }
      return Admitted(Context(id, change.actorType, change.actorId, change.action, epoch.fingerprint, token,
                              d.decision, d.ruleId));
    }

    method ExecuteByAgent(id: string, key: string, token: string, reachable: bool) returns (response: Response)
      requires Valid()
      modifies this`served, epochs.Values
      ensures Answers(Request.ExecuteAgent(id, key, token, old(clock), reachable), response)
    {
      hide Run;
      hide Admit;
      hide StepExecuteEpoch;
      if id !in epochs {
        response := Refused(404);
      } else {
        var admission := AdmitAgent(id, token);
        match admission
        case NotAdmitted(status) => response := Refused(status);
        case Admitted(ctx) => response := ExecuteEpoch(id, Some(ctx), key, reachable);
      }
      Serve(Request.ExecuteAgent(id, key, token, clock, reachable), old(View()), response);
    }

    // ------------------------------------------------------------ webhook

    /** Every epoch that has the pipeline's id takes the reported status. */
    method UpdatePipelines(id: string, status: string, sha: string)
      requires Distinct()
      modifies epochs.Values
      ensures forall e :: e in epochs ==> epochs[e].View() == Reported(old(epochs[e].View()), id, status, sha)
    {
      hide HookWrite;
      hide Reported;
      var todo := epochs.Keys;
      while todo != {}
        invariant todo <= epochs.Keys
        invariant forall e :: e in epochs && e !in todo ==>
                    epochs[e].View() == Reported(old(epochs[e].View()), id, status, sha)
        invariant forall e :: e in todo ==> epochs[e].View() == old(epochs[e].View())
        decreases |todo|
      {
        var e :| e in todo;
        todo := todo - {e};
        epochs[e].TakeReport(id, status, sha);
      }
    }

    method GitlabWebhook(chunks: seq<string>, header: string) returns (response: Response)
      requires Valid()
      modifies this`hooks, this`served, epochs.Values
      ensures Answers(Webhook(Joined(chunks), header), response)
    {
      hide Run;
      hide StepWebhook;
      var raw := ReadBody(chunks, cfg.maxBody);
      if raw.None? {
        TooLong(Joined(chunks), header);
        response := Refused(413);
      } else {
        response := TakeBody(raw.value, header);
      }
      Serve(Webhook(Joined(chunks), header), old(View()), response);
    }

    lemma TooLong(body: string, header: string)
      requires |body| > cfg.maxBody
      ensures StepWebhook(cfg, View(), body, header) == (View(), Refused(413))
    {
    }

    method TakeBody(raw: string, header: string) returns (response: Response)
      requires Distinct() && |raw| <= cfg.maxBody
      modifies this`hooks, epochs.Values
      ensures Distinct() && (View(), response) == StepWebhook(cfg, old(View()), raw, header)
    {
      hide HookAll;
      hide IsPipelineHook;
      if cfg.sha(raw) in hooks {
        return HookTaken(true);
      }
      match cfg.parse(raw)
      case NotJson => return Refused(400);
      case Unreadable => return Refused(500);
      case Attributes(id, status, sha) =>
        hooks := hooks + {cfg.sha(raw)};
        if IsPipelineHook(header) {
          UpdatePipelines(id, status, sha);
          AllReported(cfg.parse(raw));
        } else {
          NoLedger();
        }
        return HookTaken(false);
    }

    twostate lemma AllReported(b: Body)
      requires b.Attributes? && epochs == old(epochs)
      requires forall e :: e in epochs ==>
                 epochs[e].View() == Reported(old(epochs[e].View()), b.id, b.status, b.sha)
      ensures View().ledgers == HookAll(old(View()).ledgers, b)
    {
      hide HookWrite;
    }

    // ------------------------------------------------------------ targets

    /** Tells the executor after the database has committed; the in-process client does nothing. */
    method SyncExecutorObservation(v: Identity, delivered: bool) returns (response: Response)
      modifies this`undelivered, executor
      ensures undelivered == if cfg.mode == GoBoundary && !delivered then old(undelivered) + multiset{v}
              else old(undelivered)
      ensures executor.targets == if cfg.mode == GoBoundary && delivered
              then old(executor.targets)[Boundary.TargetKey(v) := v]
                                  else old(executor.targets)
      ensures response == if cfg.mode == GoBoundary && !delivered then Refused(502) else Done
    {
      match cfg.mode
      case InProcess => response := Done;
      case GoBoundary =>
        if delivered {
          executor.Put(v);
          response := Done;
        } else {
          undelivered := undelivered + multiset{v};
          response := Refused(502);
        }
    }

    /** The row is committed, then the executor is told. */
    method CommitTarget(row: Identity, delivered: bool) returns (response: Response)
      modifies this`live, this`undelivered, executor
      ensures (View(), response) == Publish(cfg, old(View()), row, delivered)
    {
      hide Boundary.TargetKey;
      live := live[(row.project, row.environment) := row];
      response := SyncExecutorObservation(row, delivered);
      NoLedger();
    }

    method UpsertTarget(payload: Identity, delivered: bool) returns (response: Response)
      modifies this`live, this`undelivered, executor
      ensures (View(), response) == Publish(cfg, old(View()), payload, delivered)
    {
      hide Publish;
      var name := (payload.project, payload.environment);
      var row := payload;
      if name in live {
        row := CopyFields(live[name], payload);
      }
      response := CommitTarget(row, delivered);
    }

    method ObserveTarget(raw: Identity, delivered: bool) returns (response: Response)
      requires Valid()
      modifies this`live, this`undelivered, this`served, executor
      ensures Answers(Observe(raw, delivered), response)
    {
      hide Run;
      hide Publish;
      hide Schemas.ParseIdentity;
      var v := Schemas.ParseIdentity(raw);
      if v.None? {
        response := Refused(422);
      } else {
        response := UpsertTarget(v.value, delivered);
      }
      Serve(Observe(raw, delivered), old(View()), response);
    }

    /** A call the orchestrator gave up reaches the executor after all. */
    method LateObservation(v: Identity)
      requires Valid() && v in undelivered
      modifies this`undelivered, this`served, executor
      ensures Answers(Deliver(v), Done)
    {
      hide Run;
      executor.Put(v);
      undelivered := undelivered - multiset{v};
      NoLedger();
      DeliverStep(cfg, old(View()), v);
      hide Step;
      Serve(Deliver(v), old(View()), Done);
    }

    method DemoDrift(id: string, f: Field, value: string, delivered: bool) returns (response: Response)
      requires Valid()
      modifies this`live, this`undelivered, this`served, executor
      ensures Answers(Drift(id, f, value, delivered), response)
    {
      hide Run;
      hide Publish;
      hide Schemas.ParseText;
      var text := Schemas.ParseText(value, 1, 256);
      if text.None? {
        response := Refused(422);
      } else if id !in epochs {
        response := Refused(404);
      } else if f == Project || f == Environment {
        response := Refused(400);
      } else {
        var name := (epochs[id].identity.project, epochs[id].identity.environment);
        if name !in live {
          response := Refused(409);
        } else {
          var target := Set(live[name], f, text.value);
          response := CommitTarget(target, delivered);
        }
      }
      Serve(Drift(id, f, value, delivered), old(View()), response);
    }

    // ------------------------------------------------------------ the rest

    /** The part of `save_evidence` that the timeline shows. */
    method SaveEvidence(id: string, kind: string, digest: string) returns (response: Response)
      requires Valid()
      modifies this`served, epochs.Values
      ensures Answers(AttachEvidence(id, kind, digest), response)
    {
      hide Run;
      if id !in epochs {
        response := Refused(404);
      } else {
        epochs[id].RecordEvent(EvidenceAttached(kind, digest));
        OneLedger(id);
        response := Done;
      }
      Serve(AttachEvidence(id, kind, digest), old(View()), response);
    }

    method Elapse(micros: nat)
      requires Valid()
      modifies this`clock, this`served
      ensures Answers(Tick(micros), Done)
    {
      clock := clock + micros;
      NoLedger();
      TickStep(cfg, old(View()), micros);
      hide Run;
      hide Step;
      Serve(Tick(micros), old(View()), Done);
    }

    /** Whatever requests the service has served, its rows keep the invariant of the workflow. */
    lemma RowsKeepInv()
      requires Valid()
      ensures forall id :: id in epochs ==> LedgerInv(cfg, id, epochs[id].View())
      ensures forall id :: id in epochs ==> |epochs[id].receipts| + Budget(epochs[id].View()) <= 2
    {
      hide Run;
      RunKeepsInv(cfg, served);
      forall id | id in epochs
        ensures LedgerInv(cfg, id, epochs[id].View()) && |epochs[id].receipts| + Budget(epochs[id].View()) <= 2
      {
        assert View().ledgers[id] == epochs[id].View();
      }
    }
  }
}
