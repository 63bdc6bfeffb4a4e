/** Whole runs: what is never undone, who wrote each receipt and on what authority, retries, and
    repeated webhook deliveries. */
module History {
  import opened Text
  import opened Identities
  import opened Comparison
  import opened Capability
  import opened Ledgers
  import opened Workflow
  import opened Moves
  import opened Invariants
  import Boundary
  import Policy
  import Schemas

  // ---------------------------------------------------------------- nothing recorded is undone

  /** The frozen release is the same, decisions once made stand, and every list only grows. */
  ghost predicate Extends(l: Ledger, l': Ledger) {
    && l'.identity == l.identity && l'.fingerprint == l.fingerprint
    && l'.pipelineId == l.pipelineId && l'.createdBy == l.createdBy
    && (l.approval.Some? ==> l'.approval == l.approval)
    && (l.change.Some? ==> l'.change == l.change)
    && l.grants <= l'.grants && l.receipts <= l'.receipts && l.outbox <= l'.outbox && l.timeline <= l'.timeline
  }

  lemma MoveExtends(cfg: Config, id: string, l: Ledger, m: Move)
    requires Enabled(cfg, id, l, m) && Applicable(l, m)
    ensures Extends(l, ApplyMove(id, l, m))
  {
    MoveKeepsIdentity(cfg, id, l, m);
  }

  /** From any state, through any requests: the epoch stays and its ledger only extends. */
  lemma {:induction false} RunExtends(cfg: Config, s: State, rs: seq<Request>, id: string)
    requires id in s.ledgers
    ensures id in Run(cfg, s, rs).ledgers
    ensures Extends(s.ledgers[id], Run(cfg, s, rs).ledgers[id])
  {
    if rs != [] {
      RunExtends(cfg, s, rs[..|rs| - 1], id);
      var mid, r := Run(cfg, s, rs[..|rs| - 1]), rs[|rs| - 1];
      StepIsMove(cfg, mid, r, id);
      MoveExtends(cfg, id, mid.ledgers[id], MoveOf(cfg, mid, r, id));
      ExtendsTransitive(s.ledgers[id], mid.ledgers[id], Next(cfg, mid, r).ledgers[id]);
    }
  }

  lemma ExtendsTransitive(a: Ledger, b: Ledger, c: Ledger)
    requires Extends(a, b) && Extends(b, c)
    ensures Extends(a, c)
  {
  }

  // ---------------------------------------------------------------- what every ledger shows

  /** Replaying an epoch's timeline gives its stored state, approval, change, grants and receipts,
      in every state of every run; and it holds one APPROVED event exactly if there is an approval. */
  lemma TimelineRebuildsRows(cfg: Config, rs: seq<Request>, id: string)
    requires id in Run(cfg, START, rs).ledgers
    ensures var l := Run(cfg, START, rs).ledgers[id]; Replay(l.timeline) == Stored(l) && ApprovedOnce(l)
  {
    hide Run;
    RunKeepsInv(cfg, rs);
  }

  /** Every approval, policy, capability and outcome event comes after a verified pipeline of the
      epoch's own commit. */
  lemma GatedAfterVerified(cfg: Config, rs: seq<Request>, id: string, n: nat)
    requires id in Run(cfg, START, rs).ledgers && n < |Run(cfg, START, rs).ledgers[id].timeline|
    requires Gated(Run(cfg, START, rs).ledgers[id].timeline[n])
    ensures var l := Run(cfg, START, rs).ledgers[id];
            exists i: nat :: i < n && l.timeline[i].PipelineVerified? && l.timeline[i].commitSha == l.identity.commitSha
  {
    hide Run;
    hide Gated;
    RunKeepsInv(cfg, rs);
    var l := Run(cfg, START, rs).ledgers[id];
    assert VerifiedBefore(l, n);
    var i: nat :| i < n && VerifiedAt(l, l.timeline, i);
    assert l.timeline[i].PipelineVerified?;
  }

  /** Receipts and outbox entries correspond one to one and in order, and no two receipts of an
      epoch share a key. */
  lemma OutboxMirrorsReceipts(cfg: Config, rs: seq<Request>, id: string)
    requires id in Run(cfg, START, rs).ledgers
    ensures var l := Run(cfg, START, rs).ledgers[id];
            && |l.outbox| == |l.receipts|
            && (forall i :: 0 <= i < |l.receipts| ==>
                  l.outbox[i] == OutboxEntry(id, l.receipts[i].result.outcome, l.receipts[i].expectedFingerprint,
                                             l.receipts[i].result.observedFingerprint))
            && (forall i, j :: 0 <= i < j < |l.receipts| ==> l.receipts[i].key != l.receipts[j].key)
  {
    hide Run;
    RunKeepsInv(cfg, rs);
    hide Replays;
    hide WithinBudget;
    hide Frozen;
    hide GrantsScoped;
    hide VerifiedFirst;
    hide ApprovedOnce;
    var l := Run(cfg, START, rs).ledgers[id];
    assert Paired(id, l) && KeysUnique(l);
    forall i | 0 <= i < |l.receipts|
      ensures l.outbox[i] == EntryOf(id, l.receipts[i])
    {
    }
  }

  // ---------------------------------------------------------------- how often an epoch can execute

  /** At most two receipts in any run, and never more than the budget already spent. */
  lemma ReceiptBound(cfg: Config, rs: seq<Request>, id: string)
    requires id in Run(cfg, START, rs).ledgers
    ensures var l := Run(cfg, START, rs).ledgers[id]; |l.receipts| + Budget(l) <= 2
  {
    RunKeepsInv(cfg, rs);
  }

  lemma OnlyReceiveAddsReceipts(id: string, l: Ledger, m: Move)
    requires Applicable(l, m)
    ensures ApplyMove(id, l, m).receipts
            == if m.Receive? then l.receipts + [Receipt(m.call.key, l.fingerprint, m.call.result)] else l.receipts
  {
  }

  lemma InvBudget(cfg: Config, s: State, id: string)
    requires Inv(cfg, s) && id in s.ledgers
    ensures WithinBudget(s.ledgers[id])
  {
    hide WithinBudget;
    assert LedgerInv(cfg, id, s.ledgers[id]);
  }

  /** Each new receipt strictly lowers the epoch's budget; nothing raises it. */
  lemma ExecutionSpends(cfg: Config, s: State, r: Request, id: string)
    requires Inv(cfg, s) && id in s.ledgers
    ensures id in Next(cfg, s, r).ledgers
    ensures var l, l' := s.ledgers[id], Next(cfg, s, r).ledgers[id];
            && Budget(l') <= Budget(l)
            && (l'.receipts != l.receipts ==> |l'.receipts| == |l.receipts| + 1 && Budget(l') < Budget(l))
  {
    hide MoveOf;
    hide Step;
    hide ApplyMove;
    hide Enabled;
    hide Inv;
    InvBudget(cfg, s, id);
    StepIsMove(cfg, s, r, id);
    MoveWithinBudget(cfg, id, s.ledgers[id], MoveOf(cfg, s, r, id));
    OnlyReceiveAddsReceipts(id, s.ledgers[id], MoveOf(cfg, s, r, id));
  }

  /** An epoch that ended under an approval never gets another receipt, whatever happens next. */
  lemma {:induction false} SpentIsFinal(cfg: Config, s: State, rs: seq<Request>, id: string)
    requires id in s.ledgers && s.ledgers[id].state.Ended? && s.ledgers[id].approval.Some?
    ensures id in Run(cfg, s, rs).ledgers
    ensures var l, l' := s.ledgers[id], Run(cfg, s, rs).ledgers[id];
            l'.receipts == l.receipts && l'.state == l.state && l'.approval == l.approval
  {
    if rs != [] {
      SpentIsFinal(cfg, s, rs[..|rs| - 1], id);
      var mid, r := Run(cfg, s, rs[..|rs| - 1]), rs[|rs| - 1];
      StepIsMove(cfg, mid, r, id);
      SpentMove(cfg, id, mid.ledgers[id], MoveOf(cfg, mid, r, id));
    }
  }

  lemma SpentMove(cfg: Config, id: string, l: Ledger, m: Move)
    requires Enabled(cfg, id, l, m) && Applicable(l, m) && l.state.Ended? && l.approval.Some?
    ensures ApplyMove(id, l, m).receipts == l.receipts
    ensures ApplyMove(id, l, m).state == l.state && ApplyMove(id, l, m).approval == l.approval
  {
    hide CallExecutor;
    hide AdmittedContext;
    hide IssueDecide;
  }

  /** Why the row read under the lock must be the committed one: after an execution under an
      approval a second one is refused, but the row as it was before would let it through. */
  lemma StaleRowWouldProceed(id: string, l: Ledger, key: string, r: Result, again: string, o: Identity)
    requires l.state == Approved && ApprovedAsIs(l) && key != again && FindReceipt(l.receipts, again) == None
    ensures var now := ExecWrite(id, l, key, r);
            && now.state.Ended? && now.approval.Some?
            && ExecDecide(now, None, again, Some(o)) == ExecRefused(409)
            && ExecDecide(l, None, again, Some(o)) == Proceed(o)
  {
    NotAmong(l.receipts, Receipt(key, l.fingerprint, r), again);
  }

  lemma {:induction false} NotAmong(receipts: seq<Receipt>, last: Receipt, key: string)
    requires FindReceipt(receipts, key) == None && last.key != key
    ensures FindReceipt(receipts + [last], key) == None
  {
    if receipts != [] {
      assert (receipts + [last])[1..] == receipts[1..] + [last];
      NotAmong(receipts[1..], last, key);
    }
  }

  /** An ended epoch without an approval, with a verified pipeline and a target the executor can
      answer for, is approved and executed again. */
  lemma ApproveThenExecuteAgain(cfg: Config, s: State, id: string, approver: string, key: string)
    requires id in s.ledgers && s.ledgers[id].approval.None?
    requires s.ledgers[id].pipelineStatus == SUCCESS && LiveOf(s, s.ledgers[id].identity).Some?
    requires CallExecutor(cfg, s.store, s.ledgers[id].identity, LiveOf(s, s.ledgers[id].identity).value, None,
                          s.clock).Some?
    requires FindReceipt(s.ledgers[id].receipts, key) == None
    ensures var s' := Run(cfg, s, [Approve(id, approver), Execute(id, key, true)]);
            id in s'.ledgers && |s'.ledgers[id].receipts| == |s.ledgers[id].receipts| + 1
  {
    hide CallExecutor;
    hide Run;
    var s1 := Next(cfg, s, Approve(id, approver));
    var l, l1 := s.ledgers[id], s1.ledgers[id];
    assert l1 == ApproveWrite(l, approver);
    assert LiveOf(s1, l1.identity) == LiveOf(s, l.identity) && s1.store == s.store && s1.clock == s.clock;
    ExecuteApproved(cfg, s1, id, key);
    RunTwo(cfg, s, Approve(id, approver), Execute(id, key, true));
  }

  /** A human execution of an approved epoch whose target the executor can answer for. */
  lemma ExecuteApproved(cfg: Config, s: State, id: string, key: string)
    requires id in s.ledgers && s.ledgers[id].state == Approved && ApprovedAsIs(s.ledgers[id])
    requires LiveOf(s, s.ledgers[id].identity).Some?
    requires CallExecutor(cfg, s.store, s.ledgers[id].identity, LiveOf(s, s.ledgers[id].identity).value, None,
                          s.clock).Some?
    requires FindReceipt(s.ledgers[id].receipts, key) == None
    ensures var s' := Next(cfg, s, Execute(id, key, true));
            id in s'.ledgers && |s'.ledgers[id].receipts| == |s.ledgers[id].receipts| + 1
  {
    hide CallExecutor;
  }

  /** One of two keys of the length the API accepts is still unused. */
  lemma FreshKey(receipts: seq<Receipt>)
    requires |receipts| <= 1
    ensures FindReceipt(receipts, "attempt-1") == None || FindReceipt(receipts, "attempt-2") == None
  {
  }

  // ---------------------------------------------------------------- who wrote each receipt

  /** Request `i` of the run wrote the epoch's receipt number `k`. */
  ghost predicate Wrote(cfg: Config, rs: seq<Request>, i: nat, id: string, k: nat) {
    && i < |rs|
    && var s := Run(cfg, START, rs[..i]);
    && id in s.ledgers && |s.ledgers[id].receipts| == k
    && MoveOf(cfg, s, rs[i], id).Receive?
    && id in Run(cfg, START, rs).ledgers && k < |Run(cfg, START, rs).ledgers[id].receipts|
    && var call := MoveOf(cfg, s, rs[i], id).call;
    && Run(cfg, START, rs).ledgers[id].receipts[k] == Receipt(call.key, s.ledgers[id].fingerprint, call.result)
  }

  /** Every receipt of every run was written by one request of that run. */
  lemma {:induction false} ReceiptHasWriter(cfg: Config, rs: seq<Request>, id: string, k: nat)
    requires id in Run(cfg, START, rs).ledgers && k < |Run(cfg, START, rs).ledgers[id].receipts|
    ensures exists i: nat :: Wrote(cfg, rs, i, id, k)
  {
    hide MoveOf;
    hide Step;
    hide ApplyMove;
    hide Enabled;
    assert rs != [];
    var n := |rs| - 1;
    var before, r := Run(cfg, START, rs[..n]), rs[n];
    if id !in before.ledgers {
      StepCreates(cfg, before, r, id);
      assert false;
    }
    StepIsMove(cfg, before, r, id);
    var m := MoveOf(cfg, before, r, id);
    if k < |before.ledgers[id].receipts| {
      ReceiptHasWriter(cfg, rs[..n], id, k);
      var i: nat :| Wrote(cfg, rs[..n], i, id, k);
      assert rs[..n][..i] == rs[..i] && rs[..n][i] == rs[i];
      MoveExtends(cfg, id, before.ledgers[id], m);
      assert Wrote(cfg, rs, i, id, k);
    } else {
      OnlyReceiveAddsReceipts(id, before.ledgers[id], m);
      assert Wrote(cfg, rs, n, id, k);
    }
  }

  // ---------------------------------------------------------------- on what authority

  /** A request that writes a receipt names the epoch, passed every check on its ledger, and was
      answered by the executor with the store and the clock of that moment. */
  ghost predicate Called(cfg: Config, s: State, r: Request, id: string, l: Ledger, call: ExecCall) {
    && call.targets == s.store && call.now == s.clock
    && (|| (r == Execute(id, call.key, true) && call.ctx == None)
        || (&& r.ExecuteAgent? && r.id == id && r.key == call.key && r.admittedAt <= s.clock
            && call.ctx.Some? && Admit(cfg, id, l, r.token, r.admittedAt) == Admitted(call.ctx.value)))
    && ExecDecide(l, call.ctx, call.key, Some(call.observed)) == Proceed(call.observed)
    && CallExecutor(cfg, call.targets, l.identity, call.observed, call.ctx, call.now) == Some(call.result)
  }

  lemma ReceiveIsCalled(cfg: Config, s: State, r: Request, id: string)
    requires id in s.ledgers && MoveOf(cfg, s, r, id).Receive?
    ensures Called(cfg, s, r, id, s.ledgers[id], MoveOf(cfg, s, r, id).call)
  {
    hide CallExecutor;
    hide Admit;
  }

  /** The grant is the epoch's own, unrevoked, for exactly this epoch, actor, project, environment,
      action and fingerprint, and unexpired when the request was admitted; the token presented
      names it and had not expired when the executor was called. */
  ghost predicate UsableGrant(cfg: Config, id: string, l: Ledger, g: Grant, token: string, at: int, now: int) {
    && l.change.Some? && g in l.grants && !g.revoked && g.scope == ScopeOf(id, l)
    && at <= now && at < g.expiresAt
    && Open(cfg.jws, token).Some?
    && var c := Open(cfg.jws, token).value;
    && c.jti == g.jti && c.scope == g.scope && now < c.exp * SECOND
    && (c.exp == WholeSeconds(g.expiresAt) ==> now < g.expiresAt)
  }

  /** Either the epoch's own fingerprint was approved, or the policy allowed the agent's change and
      the agent presented the token of a usable grant. */
  ghost predicate Authorised(cfg: Config, s: State, r: Request, id: string, l: Ledger) {
    || ApprovedAsIs(l)
    || (&& r.ExecuteAgent? && r.id == id
        && l.change.Some? && l.change.value.actorType == Policy.AGENT
        && PolicyFor(l).decision == Policy.Allow
        && exists g :: UsableGrant(cfg, id, l, g, r.token, r.admittedAt, s.clock))
  }

  lemma AdmittedGrant(cfg: Config, id: string, l: Ledger, token: string, at: int) returns (c: Claims, g: Grant)
    requires Admit(cfg, id, l, token, at).Admitted?
    ensures Open(cfg.jws, token) == Some(c) && c.scope == ScopeOf(id, l)
    ensures g in l.grants && g.jti == c.jti && !g.revoked && at < g.expiresAt
  {
    hide PyVerify;
    var v := PyVerify(cfg.jws, token, ScopeOf(id, l), at);
    c := v.claims;
    AcceptedExactly(cfg.jws, token, ScopeOf(id, l), at, c);
    FindGrantFinds(l.grants, c.jti);
    g := FindGrant(l.grants, c.jti).value;
  }

  /** Both executors check the token again, at the instant they are called. */
  lemma AnsweredUnexpired(cfg: Config, l: Ledger, targets: Boundary.Targets, observed: Identity, ctx: Context,
                          now: int, c: Claims)
    requires ctx.actorType == Policy.AGENT && Open(cfg.jws, ctx.token) == Some(c)
    requires CallExecutor(cfg, targets, l.identity, observed, Some(ctx), now).Some?
    ensures now < c.exp * SECOND
    ensures cfg.mode == GoBoundary ==> ctx.action == "deploy"
  {
    hide Fingerprint;
    hide GoVerify;
    hide PyVerify;
    match cfg.mode
    case InProcess =>
      var scope := Scope(ctx.epochId, ctx.actorType, ctx.actorId, l.identity.project, l.identity.environment,
                         ctx.action, ctx.approvedFingerprint);
      AcceptedExactly(cfg.jws, ctx.token, scope, now, PyVerify(cfg.jws, ctx.token, scope, now).claims);
    case GoBoundary =>
      var fp := Fingerprint(Go, cfg.sha, l.identity);
      var scope := Scope(ctx.epochId, Policy.AGENT, ctx.actorId, l.identity.project, l.identity.environment,
                         "deploy", fp);
      AcceptedExactly(cfg.jws, ctx.token, scope, now, GoVerify(cfg.jws, ctx.token, scope, now).claims);
  }

  lemma CalledAgentGrant(cfg: Config, s: State, r: Request, id: string, l: Ledger, call: ExecCall)
    requires GrantsScoped(id, l) && Called(cfg, s, r, id, l, call) && r.ExecuteAgent?
    ensures exists g :: UsableGrant(cfg, id, l, g, r.token, r.admittedAt, s.clock)
    ensures cfg.mode == GoBoundary ==> l.change.Some? && l.change.value.action == "deploy"
  {
    hide CallExecutor;
    hide Admit;
    hide ExecDecide;
    var c, g := AdmittedGrant(cfg, id, l, r.token, r.admittedAt);
    AdmitFacts(cfg, id, l, r.token, r.admittedAt);
    AnsweredUnexpired(cfg, l, call.targets, call.observed, call.ctx.value, call.now, c);
    assert g.expiresAt == WholeSeconds(g.expiresAt) * SECOND + g.expiresAt % SECOND;
    assert UsableGrant(cfg, id, l, g, r.token, r.admittedAt, s.clock);
  }

  lemma CalledIsAuthorised(cfg: Config, s: State, r: Request, id: string, l: Ledger, call: ExecCall)
    requires LedgerInv(cfg, id, l) && Called(cfg, s, r, id, l, call)
    ensures Authorised(cfg, s, r, id, l)
  {
    hide CallExecutor;
    hide Admit;
    hide PolicyFor;
    hide UsableGrant;
    if !ApprovedAsIs(l) {
      CalledAgentGrant(cfg, s, r, id, l, call);
      AdmitFacts(cfg, id, l, r.token, r.admittedAt);
    }
  }

  /** Through the Go executor, a receipt without an approval is a deployment outside production:
      the policy table, the DRAFT gate and the executor's deploy-only rule together. */
  ghost predicate NonProductionDeploy(l: Ledger) {
    && l.state == Draft
    && l.change.Some? && l.change.value.action == "deploy"
    && Policy.NonProduction(l.identity.environment)
  }

  /** What an agent may do without an approval: from DRAFT, reading anywhere or writing outside
      production. */
  ghost predicate AllowedAlone(l: Ledger) {
    && l.state == Draft && l.change.Some?
    && (|| Policy.ReadOnly(l.change.value.action)
        || (Policy.Writing(l.change.value.action) && Policy.NonProduction(l.identity.environment)))
  }

  /** Of these, the deployments outside production are exactly the deployments. */
  lemma AloneDeploys(l: Ledger)
    requires AllowedAlone(l)
    ensures NonProductionDeploy(l) <==> l.change.value.action == "deploy"
  {
  }

  lemma CalledUnapproved(cfg: Config, s: State, r: Request, id: string, l: Ledger, call: ExecCall)
    requires LedgerInv(cfg, id, l) && Called(cfg, s, r, id, l, call) && l.approval.None?
    ensures AllowedAlone(l) && (cfg.mode == GoBoundary ==> l.change.value.action == "deploy")
  {
    hide CallExecutor;
    hide Admit;
    hide UsableGrant;
    hide Policy.EvaluatePolicy;
    hide Policy.ReadOnly;
    hide Policy.Writing;
    hide Policy.NonProduction;
    CalledAgentGrant(cfg, s, r, id, l, call);
    AdmitFacts(cfg, id, l, r.token, r.admittedAt);
    Policy.PolicyTable(l.change.value.action, l.identity.environment);
  }

  /** The writer of a receipt, with the state it ran in and the call it made. */
  lemma FindWriter(cfg: Config, rs: seq<Request>, id: string, k: nat) returns (i: nat, s: State, call: ExecCall)
    requires id in Run(cfg, START, rs).ledgers && k < |Run(cfg, START, rs).ledgers[id].receipts|
    ensures i < |rs| && Wrote(cfg, rs, i, id, k) && s == Run(cfg, START, rs[..i]) && id in s.ledgers
    ensures LedgerInv(cfg, id, s.ledgers[id]) && Called(cfg, s, rs[i], id, s.ledgers[id], call)
    ensures Run(cfg, START, rs).ledgers[id].receipts[k] == Receipt(call.key, s.ledgers[id].fingerprint, call.result)
  {
    hide MoveOf;
    hide Called;
    hide LedgerInv;
    ReceiptHasWriter(cfg, rs, id, k);
    i :| Wrote(cfg, rs, i, id, k);
    s := Run(cfg, START, rs[..i]);
    call := MoveOf(cfg, s, rs[i], id).call;
    RunKeepsInv(cfg, rs[..i]);
    ReceiveIsCalled(cfg, s, rs[i], id);
  }

  /** Every receipt in every run is authorised at the moment it was written. */
  lemma EveryReceiptAuthorised(cfg: Config, rs: seq<Request>, id: string, k: nat)
    requires id in Run(cfg, START, rs).ledgers && k < |Run(cfg, START, rs).ledgers[id].receipts|
    ensures exists i: nat :: Wrote(cfg, rs, i, id, k)
              && Authorised(cfg, Run(cfg, START, rs[..i]), rs[i], id, Run(cfg, START, rs[..i]).ledgers[id])
  {
    hide Wrote;
    hide Run;
    hide LedgerInv;
    hide Called;
    hide Authorised;
    var i, s, call := FindWriter(cfg, rs, id, k);
    CalledIsAuthorised(cfg, s, rs[i], id, s.ledgers[id], call);
  }

  /** In every run, with either executor, a receipt was written under an approval or for an agent's
      change that the policy allows alone: reading anywhere, or writing outside production. It is a
      deployment outside production exactly if it is a deployment, and with Go it always is one. */
  lemma EveryReceiptApprovedOrAlone(cfg: Config, rs: seq<Request>, id: string, k: nat)
    requires id in Run(cfg, START, rs).ledgers && k < |Run(cfg, START, rs).ledgers[id].receipts|
    ensures exists i: nat :: Wrote(cfg, rs, i, id, k)
              && var l := Run(cfg, START, rs[..i]).ledgers[id];
                 || l.approval.Some?
                 || (&& AllowedAlone(l) && (NonProductionDeploy(l) <==> l.change.value.action == "deploy")
                     && (cfg.mode == GoBoundary ==> l.change.value.action == "deploy"))
  {
    hide Wrote;
    hide Run;
    hide LedgerInv;
    hide Called;
    hide Policy.ReadOnly;
    hide Policy.Writing;
    hide Policy.NonProduction;
    var i, s, call := FindWriter(cfg, rs, id, k);
    if s.ledgers[id].approval.None? {
      CalledUnapproved(cfg, s, rs[i], id, s.ledgers[id], call);
      AloneDeploys(s.ledgers[id]);
    }
  }

  /** In every run through the Go executor, a receipt was written under an approval or for an
      agent's deployment from DRAFT outside production. */
  lemma EveryUnapprovedReceipt(cfg: Config, rs: seq<Request>, id: string, k: nat)
    requires cfg.mode == GoBoundary
    requires id in Run(cfg, START, rs).ledgers && k < |Run(cfg, START, rs).ledgers[id].receipts|
    ensures exists i: nat :: Wrote(cfg, rs, i, id, k)
              && var l := Run(cfg, START, rs[..i]).ledgers[id]; l.approval.Some? || NonProductionDeploy(l)
  {
    hide Wrote;
    hide Run;
    hide NonProductionDeploy;
    hide AllowedAlone;
    EveryReceiptApprovedOrAlone(cfg, rs, id, k);
  }

  /** So with either executor a production write, or any other change that is neither reading nor a
      write outside production, is executed only under an approval. */
  lemma ProductionWritesApproved(cfg: Config, rs: seq<Request>, id: string, k: nat)
    requires id in Run(cfg, START, rs).ledgers && k < |Run(cfg, START, rs).ledgers[id].receipts|
    requires var l := Run(cfg, START, rs).ledgers[id];
             l.change.Some? ==>
               && !Policy.ReadOnly(l.change.value.action)
               && !(Policy.Writing(l.change.value.action) && Policy.NonProduction(l.identity.environment))
    ensures exists i: nat :: Wrote(cfg, rs, i, id, k) && Run(cfg, START, rs[..i]).ledgers[id].approval.Some?
    ensures Run(cfg, START, rs).ledgers[id].approval.Some?
  {
    hide Wrote;
    hide Run;
    hide LedgerInv;
    hide Called;
    hide Policy.ReadOnly;
    hide Policy.Writing;
    hide Policy.NonProduction;
    var i, s, call := FindWriter(cfg, rs, id, k);
    assert rs[..i] + rs[i..] == rs;
    RunConcat(cfg, START, rs[..i], rs[i..]);
    RunExtends(cfg, s, rs[i..], id);
    if s.ledgers[id].approval.None? {
      CalledUnapproved(cfg, s, rs[i], id, s.ledgers[id], call);
    }
  }

  // ---------------------------------------------------------------- what was checked at execution

  /** The executor compared the frozen release with the target it held at that instant. */
  ghost predicate CheckedAgainst(cfg: Config, l: Ledger, r: Receipt, held: Identity) {
    && r.expectedFingerprint == l.fingerprint == Fingerprint(Python, cfg.sha, l.identity)
    && r.result.observedFingerprint == Fingerprint(Go, cfg.sha, held)
    && r.result.differences == Diff(Go, l.identity, held)
    && (r.result.outcome == Executed <==> Canonical(Go, l.identity) == Canonical(Go, held))
    && (r.result.outcome == DeniedStale <==> r.result.differences != [])
    && (CommonAlphabet(held) && CommonAlphabet(l.identity)
        && NoCollision(cfg.sha, CanonicalText(Python, l.identity), CanonicalText(Python, held)) ==>
          (r.result.outcome == Executed <==> r.expectedFingerprint == r.result.observedFingerprint))
  }

  lemma CompareChecked(cfg: Config, l: Ledger, key: string, held: Identity)
    requires Frozen(cfg, l)
    ensures CheckedAgainst(cfg, l, Receipt(key, l.fingerprint, GoCompare(cfg.sha, l.identity, held)), held)
  {
    CompareDecides(cfg.sha, l.identity, held);
    if CommonAlphabet(held) && CommonAlphabet(l.identity)
       && NoCollision(cfg.sha, CanonicalText(Python, l.identity), CanonicalText(Python, held)) {
      RuntimesAgreeExactly(held);
      RuntimesAgreeExactly(l.identity);
      FingerprintsSeparate(Python, cfg.sha, l.identity, held);
    }
  }

  lemma GoAnswer(cfg: Config, targets: Boundary.Targets, e: Identity, o: Identity, ctx: Option<Context>, now: int)
    requires cfg.mode == GoBoundary && CallExecutor(cfg, targets, e, o, ctx, now).Some?
    ensures Boundary.Lookup(targets, e).Some?
    ensures CallExecutor(cfg, targets, e, o, ctx, now) == Some(GoCompare(cfg.sha, e, Boundary.Lookup(targets, e).value))
  {
    hide ValidateAgent;
    hide Boundary.LocalExecute;
    hide GoCompare;
    hide Boundary.Lookup;
  }

  lemma CalledChecked(cfg: Config, s: State, r: Request, id: string, l: Ledger, call: ExecCall)
    requires cfg.mode == GoBoundary && Frozen(cfg, l) && Called(cfg, s, r, id, l, call)
    ensures Boundary.Lookup(s.store, l.identity).Some?
    ensures CheckedAgainst(cfg, l, Receipt(call.key, l.fingerprint, call.result),
                           Boundary.Lookup(s.store, l.identity).value)
  {
    hide ExecDecide;
    hide Admit;
    hide CheckedAgainst;
    hide CallExecutor;
    hide GoCompare;
    hide Frozen;
    hide Boundary.Lookup;
    GoAnswer(cfg, s.store, l.identity, call.observed, call.ctx, s.clock);
    CompareChecked(cfg, l, call.key, Boundary.Lookup(s.store, l.identity).value);
  }

  /** The request that wrote a receipt, and the target the Go executor then held. */
  lemma GoReceipt(cfg: Config, rs: seq<Request>, id: string, k: nat) returns (i: nat, held: Identity)
    requires cfg.mode == GoBoundary
    requires id in Run(cfg, START, rs).ledgers && k < |Run(cfg, START, rs).ledgers[id].receipts|
    ensures Wrote(cfg, rs, i, id, k) && i < |rs|
    ensures var l := Run(cfg, START, rs).ledgers[id];
            && Boundary.Lookup(Run(cfg, START, rs[..i]).store, l.identity) == Some(held)
            && CheckedAgainst(cfg, l, l.receipts[k], held)
  {
    hide Wrote;
    hide Run;
    hide LedgerInv;
    hide Called;
    hide CheckedAgainst;
    hide Boundary.Lookup;
    var s, call;
    i, s, call := FindWriter(cfg, rs, id, k);
    var before, l := s.ledgers[id], Run(cfg, START, rs).ledgers[id];
    assert rs[..i] + rs[i..] == rs;
    RunConcat(cfg, START, rs[..i], rs[i..]);
    RunExtends(cfg, s, rs[i..], id);
    InvFrozen(cfg, id, before);
    CalledChecked(cfg, s, rs[i], id, before, call);
    held := Boundary.Lookup(s.store, l.identity).value;
    CheckedSame(cfg, before, l, l.receipts[k], held);
  }

  /** Every receipt of every run through the Go executor reports the comparison of the release
      frozen at creation with the target the executor held when the receipt was written. */
  lemma EveryReceiptChecked(cfg: Config, rs: seq<Request>, id: string, k: nat)
    requires cfg.mode == GoBoundary
    requires id in Run(cfg, START, rs).ledgers && k < |Run(cfg, START, rs).ledgers[id].receipts|
    ensures exists i: nat :: Wrote(cfg, rs, i, id, k)
              && var s, l := Run(cfg, START, rs[..i]), Run(cfg, START, rs).ledgers[id];
                 && Boundary.Lookup(s.store, l.identity).Some?
                 && CheckedAgainst(cfg, l, l.receipts[k], Boundary.Lookup(s.store, l.identity).value)
  {
    hide Wrote;
    hide Run;
    hide CheckedAgainst;
    hide Boundary.Lookup;
    var i, held := GoReceipt(cfg, rs, id, k);
  }

  lemma ReceiveObserved(cfg: Config, s: State, r: Request, id: string)
    requires id in s.ledgers && MoveOf(cfg, s, r, id).Receive?
    ensures LiveOf(s, s.ledgers[id].identity) == Some(MoveOf(cfg, s, r, id).call.observed)
  {
    hide Admit;
    hide CallExecutor;
  }

  lemma LocalAnswer(cfg: Config, targets: Boundary.Targets, e: Identity, o: Identity, ctx: Option<Context>, now: int)
    requires cfg.mode == InProcess
    ensures CallExecutor(cfg, targets, e, o, ctx, now) == Boundary.LocalExecute(cfg.jws, cfg.sha, e, o, ctx, now)
    ensures CallExecutor(cfg, targets, e, o, ctx, now).Some? ==>
              CallExecutor(cfg, targets, e, o, ctx, now) == Some(LocalCompare(cfg.sha, e, o))
  {
    hide PyVerify;
    hide LocalCompare;
    hide Boundary.GoExecute;
  }

  /** The in-process executor compared the frozen release with this target row. */
  ghost predicate CheckedLocally(cfg: Config, l: Ledger, r: Receipt, row: Identity) {
    && r.expectedFingerprint == l.fingerprint == Fingerprint(Python, cfg.sha, l.identity)
    && r.result.observedFingerprint == Fingerprint(Python, cfg.sha, row)
    && r.result.differences == Diff(Python, l.identity, row)
    && (r.result.outcome == Executed <==> r.expectedFingerprint == r.result.observedFingerprint)
    && (r.result.outcome == DeniedStale ==> r.result.differences != [])
    && (NoCollision(cfg.sha, CanonicalText(Python, l.identity), CanonicalText(Python, row)) ==>
          && (r.result.outcome == Executed <==> Canonical(Python, l.identity) == Canonical(Python, row))
          && (r.result.outcome == DeniedStale <==> r.result.differences != []))
  }

  lemma LocalChecked(cfg: Config, l: Ledger, key: string, row: Identity)
    requires Frozen(cfg, l)
    ensures CheckedLocally(cfg, l, Receipt(key, l.fingerprint, LocalCompare(cfg.sha, l.identity, row)), row)
  {
    hide Schemas.ValidIdentity;
    LocalDecides(cfg.sha, l.identity, row);
    hide Fingerprint;
    hide Canonical;
    hide CanonicalText;
    hide Diff;
  }

  lemma CheckedLocallySame(cfg: Config, l: Ledger, l': Ledger, r: Receipt, row: Identity)
    requires Extends(l, l') && CheckedLocally(cfg, l, r, row)
    ensures CheckedLocally(cfg, l', r, row)
  {
  }

  /** The request that wrote a receipt, and the target row the database then held. */
  lemma LocalReceipt(cfg: Config, rs: seq<Request>, id: string, k: nat) returns (i: nat, row: Identity)
    requires cfg.mode == InProcess
    requires id in Run(cfg, START, rs).ledgers && k < |Run(cfg, START, rs).ledgers[id].receipts|
    ensures Wrote(cfg, rs, i, id, k) && i < |rs|
    ensures var l := Run(cfg, START, rs).ledgers[id];
            LiveOf(Run(cfg, START, rs[..i]), l.identity) == Some(row) && CheckedLocally(cfg, l, l.receipts[k], row)
  {
    hide Run;
    hide MoveOf;
    hide LedgerInv;
    hide ExecDecide;
    hide CallExecutor;
    hide LocalCompare;
    hide LiveOf;
    hide CheckedLocally;
    hide Frozen;
    var s, ignored;
    i, s, ignored := FindWriter(cfg, rs, id, k);
    var before, call := s.ledgers[id], MoveOf(cfg, s, rs[i], id).call;
    row := call.observed;
    assert rs[..i] + rs[i..] == rs;
    RunConcat(cfg, START, rs[..i], rs[i..]);
    RunExtends(cfg, s, rs[i..], id);
    ReceiveIsCalled(cfg, s, rs[i], id);
    ReceiveObserved(cfg, s, rs[i], id);
    LocalAnswer(cfg, s.store, before.identity, row, call.ctx, s.clock);
    InvFrozen(cfg, id, before);
    LocalChecked(cfg, before, call.key, row);
    CheckedLocallySame(cfg, before, Run(cfg, START, rs).ledgers[id], Run(cfg, START, rs).ledgers[id].receipts[k], row);
  }

  /** Every receipt of every run in process reports the comparison of the release frozen at
      creation with the target row the database held when the execution ran. */
  lemma EveryLocalReceiptChecked(cfg: Config, rs: seq<Request>, id: string, k: nat)
    requires cfg.mode == InProcess
    requires id in Run(cfg, START, rs).ledgers && k < |Run(cfg, START, rs).ledgers[id].receipts|
    ensures exists i: nat :: Wrote(cfg, rs, i, id, k)
              && var s, l := Run(cfg, START, rs[..i]), Run(cfg, START, rs).ledgers[id];
                 && LiveOf(s, l.identity).Some?
                 && CheckedLocally(cfg, l, l.receipts[k], LiveOf(s, l.identity).value)
  {
    hide Wrote;
    hide Run;
    hide CheckedLocally;
    hide LiveOf;
    var i, row := LocalReceipt(cfg, rs, id, k);
  }

  /** An EXECUTED receipt of the Go executor carries two different fingerprints exactly when the
      epoch's project is outside the common alphabet. */
  lemma SplitReceiptsExactly(cfg: Config, rs: seq<Request>, id: string, k: nat)
    requires cfg.mode == GoBoundary
    requires id in Run(cfg, START, rs).ledgers && k < |Run(cfg, START, rs).ledgers[id].receipts|
    requires Run(cfg, START, rs).ledgers[id].receipts[k].result.outcome == Executed
    requires var v := Run(cfg, START, rs).ledgers[id].identity;
             NoCollision(cfg.sha, CanonicalText(Python, v), CanonicalText(Go, v))
    ensures var l := Run(cfg, START, rs).ledgers[id];
            l.receipts[k].expectedFingerprint != l.receipts[k].result.observedFingerprint
            <==> !CommonField(l.identity.project)
  {
    hide Run;
    hide Wrote;
    hide Frozen;
    hide CheckedAgainst;
    hide Boundary.Lookup;
    var l := Run(cfg, START, rs).ledgers[id];
    var i, held := GoReceipt(cfg, rs, id, k);
    RunFrozen(cfg, rs, id);
    SplitGivenHeld(cfg, l, l.receipts[k], held);
  }

  lemma SplitGivenHeld(cfg: Config, l: Ledger, r: Receipt, held: Identity)
    requires Frozen(cfg, l) && CheckedAgainst(cfg, l, r, held) && r.result.outcome == Executed
    requires NoCollision(cfg.sha, CanonicalText(Python, l.identity), CanonicalText(Go, l.identity))
    ensures r.expectedFingerprint != r.result.observedFingerprint <==> !CommonField(l.identity.project)
  {
    CompareDecides(cfg.sha, l.identity, held);
    ExecutedSplitsExactly(cfg.sha, l.identity, held);
    Schemas.ValidCommonAlphabet(l.identity);
  }

  lemma RunFrozen(cfg: Config, rs: seq<Request>, id: string)
    requires id in Run(cfg, START, rs).ledgers
    ensures Frozen(cfg, Run(cfg, START, rs).ledgers[id])
  {
    hide Run;
    hide LedgerInv;
    RunKeepsInv(cfg, rs);
    InvFrozen(cfg, id, Run(cfg, START, rs).ledgers[id]);
  }

  lemma InvFrozen(cfg: Config, id: string, l: Ledger)
    requires LedgerInv(cfg, id, l)
    ensures Frozen(cfg, l)
  {
  }

  lemma CheckedSame(cfg: Config, l: Ledger, l': Ledger, r: Receipt, held: Identity)
    requires Extends(l, l') && CheckedAgainst(cfg, l, r, held)
    ensures CheckedAgainst(cfg, l', r, held)
  {
  }

  // ---------------------------------------------------------------- retries

  lemma {:induction false} FindReceiptUnique(receipts: seq<Receipt>, k: nat)
    requires k < |receipts| && forall i, j :: 0 <= i < j < |receipts| ==> receipts[i].key != receipts[j].key
    ensures FindReceipt(receipts, receipts[k].key) == Some(receipts[k])
  {
    if k > 0 {
      assert receipts[1..][k - 1] == receipts[k];
      FindReceiptUnique(receipts[1..], k - 1);
    }
  }

  /** Once a key has a receipt, every later request with that key that gets as far as execution
      returns the same receipt and changes nothing, in any later state and after any drift. */
  lemma RetryReturnsReceipt(cfg: Config, rs: seq<Request>, later: seq<Request>, id: string, k: nat,
                            ctx: Option<Context>, reachable: bool)
    requires id in Run(cfg, START, rs).ledgers && k < |Run(cfg, START, rs).ledgers[id].receipts|
    ensures var s := Run(cfg, START, rs + later);
            var r := Run(cfg, START, rs).ledgers[id].receipts[k];
            && id in s.ledgers
            && StepExecuteEpoch(cfg, s, id, ctx, r.key, reachable) == (s, ReceiptIs(r))
  {
    hide CallExecutor;
    hide Replays;
    hide WithinBudget;
    hide Paired;
    hide Frozen;
    hide GrantsScoped;
    hide VerifiedFirst;
    hide ApprovedOnce;
    var s, s' := Run(cfg, START, rs), Run(cfg, START, rs + later);
    RunConcat(cfg, START, rs, later);
    RunExtends(cfg, s, later, id);
    RunKeepsInv(cfg, rs + later);
    assert s'.ledgers[id].receipts[k] == s.ledgers[id].receipts[k];
    FindReceiptUnique(s'.ledgers[id].receipts, k);
  }

  // ---------------------------------------------------------------- repeated webhook deliveries

  predicate Recordable(cfg: Config, r: Request) {
    r.Webhook? && |r.body| <= cfg.maxBody && cfg.parse(r.body).Attributes?
  }

  /** The bodies (by hash) recorded after a run that started with `seen` recorded. */
  function Recorded(cfg: Config, seen: set<string>, rs: seq<Request>): set<string> {
    if rs == [] then seen
    else
      var r := rs[|rs| - 1];
      Recorded(cfg, seen, rs[..|rs| - 1]) + if Recordable(cfg, r) then {cfg.sha(r.body)} else {}
  }

  /** The run with every delivery of an already recorded body left out. */
  function DropRepeats(cfg: Config, seen: set<string>, rs: seq<Request>): seq<Request> {
    if rs == [] then []
    else
      var init, r := rs[..|rs| - 1], rs[|rs| - 1];
      DropRepeats(cfg, seen, init)
      + if r.Webhook? && cfg.sha(r.body) in Recorded(cfg, seen, init) then [] else [r]
  }

  lemma HooksStep(cfg: Config, s: State, r: Request)
    ensures Next(cfg, s, r).hooks == s.hooks + if Recordable(cfg, r) then {cfg.sha(r.body)} else {}
  {
    hide Schemas.ParseIdentity;
    hide Schemas.ParseText;
    hide Admit;
    hide StepIssue;
    hide StepExecuteEpoch;
    hide InsertEpoch;
    hide Schemas.IsAction;
    hide ApproveDecide;
    match r
    case Webhook(_, _) =>
    case CreateEpoch(i, raw, p, requester) =>
      InsertHooks(cfg, s, i, Schemas.ParseIdentity(raw), Schemas.ParseText(p, 1, 80), requester);
    case Issue(i, requester, ttl, jti, at) => IssueHooks(cfg, s, i, requester, ttl, jti, at);
    case Execute(i, key, reachable) => if i in s.ledgers { ExecHooks(cfg, s, i, None, key, reachable); }
    case ExecuteAgent(i, key, token, at, reachable) =>
      if i in s.ledgers && Admit(cfg, i, s.ledgers[i], token, at).Admitted? {
        ExecHooks(cfg, s, i, Some(Admit(cfg, i, s.ledgers[i], token, at).context), key, reachable);
      }
    case _ =>
  }

  lemma InsertHooks(cfg: Config, s: State, i: string, v: Option<Identity>, p: Option<string>, requester: string)
    ensures InsertEpoch(cfg, s, i, v, p, requester).0.hooks == s.hooks
  {
  }

  lemma IssueHooks(cfg: Config, s: State, i: string, requester: string, ttl: int, jti: string, at: int)
    ensures StepIssue(cfg, s, i, requester, ttl, jti, at).0.hooks == s.hooks
  {
  }

  lemma ExecHooks(cfg: Config, s: State, i: string, ctx: Option<Context>, key: string, reachable: bool)
    requires i in s.ledgers
    ensures StepExecuteEpoch(cfg, s, i, ctx, key, reachable).0.hooks == s.hooks
  {
  }

  lemma {:induction false} HooksRecorded(cfg: Config, s: State, rs: seq<Request>)
    ensures Run(cfg, s, rs).hooks == Recorded(cfg, s.hooks, rs)
  {
    if rs != [] {
      HooksRecorded(cfg, s, rs[..|rs| - 1]);
      HooksStep(cfg, Run(cfg, s, rs[..|rs| - 1]), rs[|rs| - 1]);
    }
  }

  lemma RepeatChangesNothing(cfg: Config, s: State, body: string, header: string)
    requires cfg.sha(body) in s.hooks
    ensures Next(cfg, s, Webhook(body, header)) == s
  {
  }

  /** Leaving out every repeated delivery gives the same final state, whatever requests of other
      kinds come between. */
  lemma {:induction false} RepeatsDoNotMatter(cfg: Config, s: State, rs: seq<Request>)
    ensures Run(cfg, s, DropRepeats(cfg, s.hooks, rs)) == Run(cfg, s, rs)
  {
    if rs != [] {
      var init, r := rs[..|rs| - 1], rs[|rs| - 1];
      RepeatsDoNotMatter(cfg, s, init);
      HooksRecorded(cfg, s, init);
      var kept := DropRepeats(cfg, s.hooks, init);
      if r.Webhook? && cfg.sha(r.body) in Recorded(cfg, s.hooks, init) {
        RepeatChangesNothing(cfg, Run(cfg, s, init), r.body, r.header);
        assert kept + [] == kept;
      } else {
        assert (kept + [r])[..|kept|] == kept;
      }
    }
  }
}
