/** From a capability to a receipt: what an agent can do with a freshly issued capability, decided
    by the policy, the grant table, both verifications and the executor's gate together. */
module Delegation {
  import opened Text
  import opened Identities
  import opened Comparison
  import opened Capability
  import opened Ledgers
  import opened Workflow
  import opened Moves
  import opened Invariants
  import Boundary
  import Policy
  import Schemas

  // ---------------------------------------------------------------- one grant per identifier

  /** Every grant's identifier is taken, and no two grants of any epochs share one. The service
      looks grants up by identifier alone. */
  ghost predicate GrantIds(s: State) {
    && (forall id, i, jti :: HoldsGrant(s, id, i, jti) ==> jti in s.jtis)
    && (forall a, b, i, j, jti :: HoldsGrant(s, a, i, jti) && HoldsGrant(s, b, j, jti) ==> a == b && i == j)
  }

  /** The epoch's grant number `i` has this identifier. */
  ghost predicate HoldsGrant(s: State, id: string, i: int, jti: string) {
    id in s.ledgers && 0 <= i < |s.ledgers[id].grants| && s.ledgers[id].grants[i].jti == jti
  }

  lemma IssueTakes(cfg: Config, s: State, id: string, requester: string, ttl: int, jti: string, at: int)
    ensures var s' := StepIssue(cfg, s, id, requester, ttl, jti, at).0;
            && s.jtis <= s'.jtis
            && (id in s.ledgers && at <= s.clock && IssueMove(cfg, s, id, requester, ttl, jti, at).GrantTo? ==>
                  jti !in s.jtis && jti in s'.jtis && IssueMove(cfg, s, id, requester, ttl, jti, at).issued.jti == jti)
  {
    hide IssueDecide;
    hide IssueWrite;
    hide Sign;
    if id in s.ledgers {
      IssuePolicy(s.ledgers[id]);
    }
  }

  lemma ExecTakes(cfg: Config, s: State, id: string, ctx: Option<Context>, key: string, reachable: bool)
    requires id in s.ledgers
    ensures StepExecuteEpoch(cfg, s, id, ctx, key, reachable).0.jtis == s.jtis
    ensures !ExecMove(cfg, s, id, ctx, key, reachable).GrantTo?
  {
    hide ExecDecide;
    hide CallExecutor;
  }

  lemma StepTakes(cfg: Config, s: State, r: Request, id: string)
    requires id in s.ledgers
    ensures s.jtis <= Next(cfg, s, r).jtis
    ensures MoveOf(cfg, s, r, id).GrantTo? ==>
              && r.Issue? && r.id == id && MoveOf(cfg, s, r, id).issued.jti == r.jti
              && r.jti !in s.jtis && r.jti in Next(cfg, s, r).jtis
  {
    hide Schemas.ParseIdentity;
    hide Schemas.ParseText;
    hide Schemas.IsAction;
    hide Admit;
    hide StepIssue;
    hide IssueMove;
    hide StepExecuteEpoch;
    hide ExecMove;
    hide ApproveDecide;
    hide IsPipelineHook;
    hide HookWrite;
    hide NewLedger;
    hide Boundary.TargetKey;
    match r
    case Issue(i, requester, ttl, jti, at) => IssueTakes(cfg, s, i, requester, ttl, jti, at);
    case Execute(i, key, reachable) => if i in s.ledgers { ExecTakes(cfg, s, i, None, key, reachable); }
    case ExecuteAgent(i, key, token, at, reachable) =>
      if i in s.ledgers && Admit(cfg, i, s.ledgers[i], token, at).Admitted? {
        ExecTakes(cfg, s, i, Some(Admit(cfg, i, s.ledgers[i], token, at).context), key, reachable);
      }
    case _ =>
  }

  lemma MoveGrants(id: string, l: Ledger, m: Move)
    requires Applicable(l, m)
    ensures ApplyMove(id, l, m).grants
            == if m.GrantTo?
               then l.grants + [Grant(m.issued.jti, ScopeOf(id, l), m.requester, m.issued.expiresAt, false)]
               else l.grants
  {
  }

  lemma NewHasNoGrants(cfg: Config, s: State, r: Request, id: string)
    requires id !in s.ledgers && id in Next(cfg, s, r).ledgers
    ensures Next(cfg, s, r).ledgers[id].grants == []
  {
    hide Step;
    hide Schemas.ParseIdentity;
    hide Schemas.ParseText;
    StepCreates(cfg, s, r, id);
  }

  /** A grant after a step was there before it, or is the last one of the epoch the step issued for. */
  lemma GrantBefore(cfg: Config, s: State, r: Request, id: string, i: int, jti: string)
    requires HoldsGrant(Next(cfg, s, r), id, i, jti)
    ensures || HoldsGrant(s, id, i, jti)
            || (r.Issue? && r.id == id && r.jti == jti && jti !in s.jtis && id in s.ledgers
                && i == |s.ledgers[id].grants|)
  {
    hide Step;
    hide MoveOf;
    hide Enabled;
    hide ApplyMove;
    if id !in s.ledgers {
      NewHasNoGrants(cfg, s, r, id);
      assert false;
    }
    var m := MoveOf(cfg, s, r, id);
    StepIsMove(cfg, s, r, id);
    StepTakes(cfg, s, r, id);
    MoveGrants(id, s.ledgers[id], m);
  }

  lemma StepKeepsGrantIds(cfg: Config, s: State, r: Request)
    requires GrantIds(s)
    ensures GrantIds(Next(cfg, s, r))
  {
    hide Step;
    hide HoldsGrant;
    var s' := Next(cfg, s, r);
    forall id, i, jti | HoldsGrant(s', id, i, jti)
      ensures jti in s'.jtis
    {
      GrantTaken(cfg, s, r, id, i, jti);
    }
    forall a, b, i, j, jti | HoldsGrant(s', a, i, jti) && HoldsGrant(s', b, j, jti)
      ensures a == b && i == j
    {
      GrantBefore(cfg, s, r, a, i, jti);
      GrantBefore(cfg, s, r, b, j, jti);
    }
  }

  lemma GrantTaken(cfg: Config, s: State, r: Request, id: string, i: int, jti: string)
    requires GrantIds(s) && HoldsGrant(Next(cfg, s, r), id, i, jti)
    ensures jti in Next(cfg, s, r).jtis
  {
    hide Step;
    hide MoveOf;
    hide Enabled;
    hide ApplyMove;
    if id !in s.ledgers {
      NewHasNoGrants(cfg, s, r, id);
      assert false;
    }
    StepIsMove(cfg, s, r, id);
    StepTakes(cfg, s, r, id);
    MoveGrants(id, s.ledgers[id], MoveOf(cfg, s, r, id));
    assert HoldsGrant(s, id, i, jti) ==> jti in s.jtis;
  }

  /** In every run a capability identifier belongs to at most one grant of one epoch, so looking
      it up by identifier and looking it up in the epoch find the same grant. */
  lemma {:induction false} RunKeepsGrantIds(cfg: Config, rs: seq<Request>)
    ensures GrantIds(Run(cfg, START, rs))
  {
    if rs != [] {
      RunKeepsGrantIds(cfg, rs[..|rs| - 1]);
      StepKeepsGrantIds(cfg, Run(cfg, START, rs[..|rs| - 1]), rs[|rs| - 1]);
    }
  }

  // ---------------------------------------------------------------- from an issued capability to a receipt

  lemma {:induction false} FindLastGrant(grants: seq<Grant>, g: Grant)
    requires forall i :: 0 <= i < |grants| ==> grants[i].jti != g.jti
    ensures FindGrant(grants, g.jti) == None && FindGrant(grants + [g], g.jti) == Some(g)
  {
    if grants != [] {
      FindLastGrant(grants[1..], g);
      assert (grants + [g])[1..] == grants[1..] + [g];
    }
  }

  /** When a capability is granted: the pipeline is verified and the policy says ALLOW, or says ASK
      and the epoch is approved. */
  predicate Grantable(l: Ledger)
    requires l.change.Some?
  {
    && l.pipelineStatus == SUCCESS
    && PolicyFor(l).decision != Policy.Deny
    && (PolicyFor(l).decision == Policy.Ask ==> l.state == Approved)
  }

  lemma GrantableExactly(l: Ledger)
    requires l.change.Some? && AgentChange(l) && WithinBudget(l) && OneFingerprint(l)
    ensures IssueDecide(l).IssueGranted? <==> Grantable(l)
  {
    hide Policy.EvaluatePolicy;
    hide Schemas.IsAction;
  }

  /** The ledger a request for a capability leaves behind. */
  function AfterIssue(id: string, l: Ledger, requester: string, i: Issued): Ledger
    requires l.change.Some?
  {
    match IssueDecide(l)
    case IssueRefused(_) => l
    case IssueNoted(d, _) => NotePolicy(l, d)
    case IssueGranted(d) => IssueWrite(id, l, d, requester, i)
  }

  lemma IssueStep(cfg: Config, s: State, id: string, requester: string, ttl: int, jti: string)
    requires id in s.ledgers && s.ledgers[id].change.Some? && jti != "" && jti !in s.jtis
    ensures var l := s.ledgers[id];
            var s' := Next(cfg, s, Issue(id, requester, ttl, jti, s.clock));
            && s'.ledgers == s.ledgers[id := AfterIssue(id, l, requester, IssueToken(cfg, id, l, ttl, jti, s.clock))]
            && s'.live == s.live && s'.store == s.store && s'.clock == s.clock
  {
    hide IssueDecide;
    hide IssueWrite;
    hide NotePolicy;
    hide Sign;
    assert s.ledgers[id := s.ledgers[id]] == s.ledgers;
  }

  /** What the agent's admission depends on is the same after the request. */
  lemma AfterIssueKeeps(id: string, l: Ledger, requester: string, i: Issued)
    requires l.change.Some?
    ensures var l1 := AfterIssue(id, l, requester, i);
            && l1.identity == l.identity && l1.state == l.state && l1.approval == l.approval
            && l1.receipts == l.receipts && l1.change == l.change && l1.fingerprint == l.fingerprint
            && l1.pipelineStatus == l.pipelineStatus
            && l1.grants == if IssueDecide(l).IssueGranted?
                            then l.grants + [Grant(i.jti, ScopeOf(id, l), requester, i.expiresAt, false)] else l.grants
  {
    hide IssueDecide;
  }

  /** The capability gets its agent through the orchestrator's checks exactly when it was granted
      and has not expired. */
  lemma AdmittedExactly(cfg: Config, id: string, l: Ledger, requester: string, ttl: int, jti: string, at: int, now: int)
    requires Lawful(cfg.jws) && jti != "" && at <= now
    requires l.change.Some? && AgentChange(l) && Frozen(cfg, l)
    requires forall k :: 0 <= k < |l.grants| ==> l.grants[k].jti != jti
    ensures var i := IssueToken(cfg, id, l, ttl, jti, at);
            var a := Admit(cfg, id, AfterIssue(id, l, requester, i), i.token, now);
            && (a.Admitted? <==> IssueDecide(l).IssueGranted? && now < WholeSeconds(i.expiresAt) * SECOND)
            && (a.Admitted? ==> a.context == ContextOf(cfg, id, l, i))
  {
    hide Policy.EvaluatePolicy;
    hide Schemas.IsAction;
    hide Schemas.ValidIdentity;
    hide Fingerprint;
    hide Lawful;
    hide Sign;
    hide PyVerify;
    hide AfterIssue;
    var i := IssueToken(cfg, id, l, ttl, jti, at);
    var scope := ScopeOf(id, l);
    AfterIssueKeeps(id, l, requester, i);
    IssuedAcceptedExactly(cfg.jws, scope, ttl, at, jti, scope, now);
    FindLastGrant(l.grants, Grant(jti, scope, requester, i.expiresAt, false));
    if PyVerify(cfg.jws, i.token, scope, now).Accepted? {
      IssuedClaims(cfg.jws, scope, ttl, at, jti, now);
    }
  }

  /** The context sent along for the epoch's change with this capability. */
  function ContextOf(cfg: Config, id: string, l: Ledger, i: Issued): Context
    requires l.change.Some?
  {
    EpochContext(cfg.sha, id, l.identity, l.change.value.actorId, l.change.value.action, i.token, PolicyFor(l))
  }

  lemma IssuedClaims(j: Jws, scope: Scope, ttl: int, at: int, jti: string, now: int)
    requires Lawful(j)
    requires PyVerify(j, IssueCapability(j, scope, ttl, at, jti).token, scope, now).Accepted?
    ensures PyVerify(j, IssueCapability(j, scope, ttl, at, jti).token, scope, now).claims.jti == jti
  {
    var i := IssueCapability(j, scope, ttl, at, jti);
    OpenSigned(j, Claims(1, jti, TYP, scope, WholeSeconds(at), WholeSeconds(i.expiresAt)));
    hide Lawful;
    AcceptedExactly(j, i.token, scope, now, PyVerify(j, i.token, scope, now).claims);
  }

  /** What the configured executor adds: the Go one takes only a `deploy` in the common alphabet, on
      a target it has observed. */
  ghost predicate ExecutorTakes(cfg: Config, targets: Boundary.Targets, l: Ledger)
    requires l.change.Some?
  {
    cfg.mode == GoBoundary ==>
      l.change.value.action == "deploy" && CommonAlphabet(l.identity) && Boundary.Lookup(targets, l.identity).Some?
  }

  /** The two runtimes' texts of the release do not collide; only the Go executor needs it. */
  ghost predicate TextsApart(cfg: Config, v: Identity) {
    cfg.mode == GoBoundary ==> NoCollision(cfg.sha, CanonicalText(Python, v), CanonicalText(Go, v))
  }

  lemma AnsweredExactly(cfg: Config, id: string, l: Ledger, targets: Boundary.Targets, o: Identity, ttl: int,
                        jti: string, at: int, now: int)
    requires Lawful(cfg.jws) && jti != "" && at <= now && l.change.Some? && AgentChange(l) && Frozen(cfg, l)
    requires now < WholeSeconds(IssueToken(cfg, id, l, ttl, jti, at).expiresAt) * SECOND
    requires TextsApart(cfg, l.identity)
    ensures var ctx := ContextOf(cfg, id, l, IssueToken(cfg, id, l, ttl, jti, at));
            CallExecutor(cfg, targets, l.identity, o, Some(ctx), now).Some? <==> ExecutorTakes(cfg, targets, l)
  {
    hide Policy.EvaluatePolicy;
    hide Schemas.IsAction;
    hide Schemas.ValidIdentity;
    hide Fingerprint;
    hide Lawful;
    hide CommonAlphabet;
    hide NoCollision;
    hide Boundary.LocalExecute;
    hide Boundary.GoExecute;
    hide Boundary.Lookup;
    hide Sign;
    var scope := ScopeOf(id, l);
    var i := IssueToken(cfg, id, l, ttl, jti, at);
    var ctx := ContextOf(cfg, id, l, i);
    IssuedAcceptedExactly(cfg.jws, scope, ttl, at, jti, scope, now);
    match cfg.mode
    case InProcess => LocalTakes(cfg, l.identity, o, ctx, scope, now);
    case GoBoundary =>
      IssuedPassesGateExactly(cfg.jws, cfg.sha, id, l.identity, l.change.value.actorId, l.change.value.action,
                              PolicyFor(l), ttl, at, jti, now);
      GoTakes(cfg, targets, l.identity, ctx, now);
  }

  lemma LocalTakes(cfg: Config, e: Identity, o: Identity, ctx: Context, scope: Scope, now: int)
    requires scope == Scope(ctx.epochId, ctx.actorType, ctx.actorId, e.project, e.environment, ctx.action,
                            ctx.approvedFingerprint)
    requires PyVerify(cfg.jws, ctx.token, scope, now).Accepted?
    ensures Boundary.LocalExecute(cfg.jws, cfg.sha, e, o, Some(ctx), now).Some?
  {
    hide PyVerify;
    hide LocalCompare;
  }

  lemma GoTakes(cfg: Config, targets: Boundary.Targets, e: Identity, ctx: Context, now: int)
    ensures Boundary.GoExecute(cfg.jws, cfg.sha, targets, e, Some(ctx), now).Some?
            <==> ValidateAgent(cfg.jws, cfg.sha, e, ctx, now) && Boundary.Lookup(targets, e).Some?
  {
    hide ValidateAgent;
    hide GoCompare;
    hide Boundary.Lookup;
  }

  /** The epoch is still to be executed: in DRAFT, if the policy allows it there, or approved; and
      this key is unused. */
  predicate Executable(l: Ledger, key: string)
    requires l.change.Some?
  {
    && FindReceipt(l.receipts, key) == None
    && (l.state == Approved || (l.state == Draft && PolicyFor(l).decision == Policy.Allow))
  }

  lemma DecideExactly(l: Ledger, ctx: Context, key: string, live: Option<Identity>)
    requires l.change.Some? && WithinBudget(l) && OneFingerprint(l)
    requires PolicyAllows(Some(ctx)) <==> PolicyFor(l).decision == Policy.Allow
    ensures ExecDecide(l, Some(ctx), key, live).Proceed? <==> Executable(l, key) && live.Some?
    ensures ExecDecide(l, Some(ctx), key, live).Proceed? ==> live == Some(ExecDecide(l, Some(ctx), key, live).observed)
  {
    hide PolicyAllows;
    hide PolicyFor;
    hide FindReceipt;
  }

  /** One step of an agent: a receipt exactly when it is admitted, may proceed and is answered. */
  lemma AgentStep(cfg: Config, s: State, id: string, key: string, token: string, at: int)
    requires id in s.ledgers && at <= s.clock
    ensures var l := s.ledgers[id];
            var s' := Next(cfg, s, ExecuteAgent(id, key, token, at, true));
            var a := Admit(cfg, id, l, token, at);
            && id in s'.ledgers && SameSurroundings(s, s', id)
            && (if Receives(cfg, s, l, a, key) then |s'.ledgers[id].receipts| == |l.receipts| + 1
                else s'.ledgers[id].receipts == l.receipts)
  {
    hide Admit;
    hide CallExecutor;
    hide ExecDecide;
  }

  ghost predicate Receives(cfg: Config, s: State, l: Ledger, a: Admission, key: string) {
    && a.Admitted?
    && var d := ExecDecide(l, Some(a.context), key, LiveOf(s, l.identity));
    && d.Proceed? && CallExecutor(cfg, s.store, l.identity, d.observed, Some(a.context), s.clock).Some?
  }

  /** The targets and the epoch's release, pipeline, change and approval are as before. */
  ghost predicate SameSurroundings(s: State, s': State, id: string) {
    && id in s.ledgers && id in s'.ledgers && s'.live == s.live && s'.store == s.store
    && s'.ledgers[id].identity == s.ledgers[id].identity && s'.ledgers[id].change == s.ledgers[id].change
    && s'.ledgers[id].pipelineStatus == s.ledgers[id].pipelineStatus
    && s'.ledgers[id].approval == s.ledgers[id].approval
  }

  /** A capability is asked for now and used `dt` later. */
  function IssueThenExecute(cfg: Config, s: State, id: string, requester: string, ttl: int, jti: string, key: string,
                            dt: nat): seq<Request>
    requires id in s.ledgers && s.ledgers[id].change.Some?
  {
    [Issue(id, requester, ttl, jti, s.clock), Tick(dt),
     ExecuteAgent(id, key, IssueToken(cfg, id, s.ledgers[id], ttl, jti, s.clock).token, s.clock + dt, true)]
  }

  /** Everything between the request for a capability and the receipt. */
  ghost predicate WillReceive(cfg: Config, s: State, id: string, ttl: int, jti: string, key: string, dt: nat)
    requires id in s.ledgers && s.ledgers[id].change.Some?
  {
    var l := s.ledgers[id];
    && Grantable(l) && Executable(l, key) && LiveOf(s, l.identity).Some?
    && s.clock + dt < WholeSeconds(IssueToken(cfg, id, l, ttl, jti, s.clock).expiresAt) * SECOND
    && ExecutorTakes(cfg, s.store, l)
  }

  /** End to end, for an agent's epoch in any state: a capability asked for now and used `dt` later
      brings one receipt exactly when the pipeline is verified, the policy allows the change or the
      epoch is approved, it is still to be executed under an unused key, its target is known, the
      token is unexpired, and the executor takes the action; otherwise it brings none. */
  lemma DelegationExactly(cfg: Config, s: State, id: string, requester: string, ttl: int, jti: string, key: string,
                          dt: nat)
    requires Lawful(cfg.jws) && Inv(cfg, s) && GrantIds(s) && id in s.ledgers && s.ledgers[id].change.Some?
    requires jti != "" && jti !in s.jtis && TextsApart(cfg, s.ledgers[id].identity)
    ensures var s' := Run(cfg, s, IssueThenExecute(cfg, s, id, requester, ttl, jti, key, dt));
            && id in s'.ledgers && SameSurroundings(s, s', id)
            && (if WillReceive(cfg, s, id, ttl, jti, key, dt)
                then |s'.ledgers[id].receipts| == |s.ledgers[id].receipts| + 1
                else s'.ledgers[id].receipts == s.ledgers[id].receipts)
  {
    hide Run;
    hide Receives;
    hide WillReceive;
    hide Inv;
    hide GrantIds;
    hide Lawful;
    hide SameSurroundings;
    hide TextsApart;
    hide IssueThenExecute;
    DelegatedRun(cfg, s, id, requester, ttl, jti, key, dt);
    ReceivesExactly(cfg, s, id, requester, ttl, jti, key, dt);
  }

  /** The admission of the agent at the third request. */
  function LaterAdmission(cfg: Config, s: State, id: string, requester: string, ttl: int, jti: string,
                          dt: nat): Admission
    requires id in s.ledgers && s.ledgers[id].change.Some?
  {
    var i := IssueToken(cfg, id, s.ledgers[id], ttl, jti, s.clock);
    Admit(cfg, id, AfterIssue(id, s.ledgers[id], requester, i), i.token, s.clock + dt)
  }

  lemma ReceivesExactly(cfg: Config, s: State, id: string, requester: string, ttl: int, jti: string, key: string,
                        dt: nat)
    requires Lawful(cfg.jws) && Inv(cfg, s) && GrantIds(s) && id in s.ledgers && s.ledgers[id].change.Some?
    requires jti !in s.jtis && jti != "" && TextsApart(cfg, s.ledgers[id].identity)
    ensures var l, a := s.ledgers[id], LaterAdmission(cfg, s, id, requester, ttl, jti, dt);
            Receives(cfg, s.(clock := s.clock + dt), l, a, key) <==> WillReceive(cfg, s, id, ttl, jti, key, dt)
  {
    hide AfterIssue;
    hide IssueToken;
    hide PolicyFor;
    hide ExecutorTakes;
    hide Grantable;
    hide Executable;
    hide Lawful;
    hide TextsApart;
    hide Admit;
    hide CallExecutor;
    hide AgentChange;
    hide Frozen;
    hide WithinBudget;
    hide OneFingerprint;
    hide IssueDecide;
    hide ExecDecide;
    hide EpochContext;
    hide PolicyAllows;
    hide WholeSeconds;
    var l := s.ledgers[id];
    AgentFacts(cfg, s, id, jti);
    hide Inv;
    hide GrantIds;
    GrantableExactly(l);
    AdmittedExactly(cfg, id, l, requester, ttl, jti, s.clock, s.clock + dt);
    var a := LaterAdmission(cfg, s, id, requester, ttl, jti, dt);
    if a.Admitted? {
      ContextAllows(cfg, id, l, IssueToken(cfg, id, l, ttl, jti, s.clock));
      DecideExactly(l, a.context, key, LiveOf(s, l.identity));
      if ExecDecide(l, Some(a.context), key, LiveOf(s, l.identity)).Proceed? {
        AnsweredExactly(cfg, id, l, s.store, LiveOf(s, l.identity).value, ttl, jti, s.clock, s.clock + dt);
      }
    }
  }

  lemma ContextAllows(cfg: Config, id: string, l: Ledger, i: Issued)
    requires l.change.Some?
    ensures PolicyAllows(Some(ContextOf(cfg, id, l, i))) <==> PolicyFor(l).decision == Policy.Allow
  {
    hide Fingerprint;
    hide Policy.EvaluatePolicy;
  }

  lemma AgentFacts(cfg: Config, s: State, id: string, jti: string)
    requires Inv(cfg, s) && GrantIds(s) && id in s.ledgers && jti !in s.jtis
    ensures var l := s.ledgers[id];
            && AgentChange(l) && Frozen(cfg, l) && WithinBudget(l) && OneFingerprint(l)
            && (forall k :: 0 <= k < |l.grants| ==> l.grants[k].jti != jti)
  {
    hide LedgerInv;
    LedgerFacts(cfg, id, s.ledgers[id]);
    hide Inv;
    hide Frozen;
    hide WithinBudget;
    hide OneFingerprint;
    hide AgentChange;
    forall k | 0 <= k < |s.ledgers[id].grants|
      ensures s.ledgers[id].grants[k].jti != jti
    {
      assert HoldsGrant(s, id, k, s.ledgers[id].grants[k].jti);
    }
  }

  lemma LedgerFacts(cfg: Config, id: string, l: Ledger)
    requires LedgerInv(cfg, id, l)
    ensures AgentChange(l) && Frozen(cfg, l) && WithinBudget(l) && OneFingerprint(l)
  {
    hide Replays;
    hide VerifiedFirst;
    hide ApprovedOnce;
    hide GrantsScoped;
    hide WithinBudget;
    hide KeysUnique;
    hide Paired;
    hide OneFingerprint;
    hide AgentChange;
    hide Fingerprint;
    hide Schemas.ValidIdentity;
  }

  /** The three requests, with what the third decides left to say. */
  lemma DelegatedRun(cfg: Config, s: State, id: string, requester: string, ttl: int, jti: string, key: string, dt: nat)
    requires id in s.ledgers && s.ledgers[id].change.Some? && jti != "" && jti !in s.jtis
    ensures var l, a := s.ledgers[id], LaterAdmission(cfg, s, id, requester, ttl, jti, dt);
            var s' := Run(cfg, s, IssueThenExecute(cfg, s, id, requester, ttl, jti, key, dt));
            && id in s'.ledgers && SameSurroundings(s, s', id)
            && (if Receives(cfg, s.(clock := s.clock + dt), l, a, key)
                then |s'.ledgers[id].receipts| == |l.receipts| + 1
                else s'.ledgers[id].receipts == l.receipts)
  {
    hide Next;
    hide Run;
    hide AfterIssue;
    hide IssueToken;
    hide Admit;
    hide Receives;
    var l := s.ledgers[id];
    var i := IssueToken(cfg, id, l, ttl, jti, s.clock);
    var l1 := AfterIssue(id, l, requester, i);
    IssueStep(cfg, s, id, requester, ttl, jti);
    var s1 := Next(cfg, s, Issue(id, requester, ttl, jti, s.clock));
    TickOnly(cfg, s1, dt);
    AfterIssueKeeps(id, l, requester, i);
    var s2 := Next(cfg, s1, Tick(dt));
    var a := Admit(cfg, id, l1, i.token, s.clock + dt);
    AgentStep(cfg, s2, id, key, i.token, s.clock + dt);
    SameReceives(cfg, s.(clock := s.clock + dt), s2, l, l1, a, key);
    RunThree(cfg, s, Issue(id, requester, ttl, jti, s.clock), Tick(dt),
             ExecuteAgent(id, key, i.token, s.clock + dt, true));
  }

  /** The request for the capability does not touch what the execution looks at. */
  lemma SameReceives(cfg: Config, s: State, s': State, l: Ledger, l': Ledger, a: Admission, key: string)
    requires l'.identity == l.identity && l'.state == l.state && l'.approval == l.approval && l'.receipts == l.receipts
    requires l'.fingerprint == l.fingerprint && s'.live == s.live && s'.store == s.store && s'.clock == s.clock
    ensures Receives(cfg, s', l', a, key) <==> Receives(cfg, s, l, a, key)
  {
    hide CallExecutor;
    hide PolicyAllows;
    hide FindReceipt;
  }

  lemma TickOnly(cfg: Config, s: State, dt: nat)
    ensures Next(cfg, s, Tick(dt)) == s.(clock := s.clock + dt)
  {
  }
}
