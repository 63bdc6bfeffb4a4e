/** When an executed epoch can be executed once more. The documentation calls the state machine
    terminal; `approve_epoch` does not look at the state. */
module Terminal {
  import opened Text
  import opened Identities
  import opened Ledgers
  import opened Workflow
  import opened Moves
  import opened Invariants
  import opened History
  import Boundary
  import Policy
  import Schemas

  /** Whatever requests follow, the epoch gets no further receipt. */
  ghost predicate NeverAnother(cfg: Config, s: State, id: string)
    requires id in s.ledgers
  {
    forall rs :: id in Run(cfg, s, rs).ledgers ==> Run(cfg, s, rs).ledgers[id].receipts == s.ledgers[id].receipts
  }

  /** A delivery that would report success for the epoch's pipeline and commit. */
  predicate ReportsSuccess(cfg: Config, s: State, l: Ledger, body: string) {
    && |body| <= cfg.maxBody && cfg.sha(body) !in s.hooks
    && cfg.parse(body) == Attributes(l.pipelineId, SUCCESS, l.identity.commitSha)
  }

  /** The pipeline is verified, or some delivery not yet recorded would verify it. */
  ghost predicate Verifiable(cfg: Config, s: State, id: string)
    requires id in s.ledgers
  {
    s.ledgers[id].pipelineStatus == SUCCESS || exists body :: ReportsSuccess(cfg, s, s.ledgers[id], body)
  }

  // ---------------------------------------------------------------- one more execution

  const PIPELINE_HOOK: string := "Pipeline Hook"

  lemma PipelineHookHeader()
    ensures IsPipelineHook(PIPELINE_HOOK)
  {
    assert Schemas.Lower(PIPELINE_HOOK) == "pipeline hook";
  }

  /** The state after a delivery that reports success. */
  lemma HookVerifies(cfg: Config, s: State, id: string, body: string)
    requires id in s.ledgers && ReportsSuccess(cfg, s, s.ledgers[id], body)
    ensures var s' := Next(cfg, s, Webhook(body, PIPELINE_HOOK));
            && id in s'.ledgers && s'.ledgers[id].pipelineStatus == SUCCESS
            && s'.ledgers[id].identity == s.ledgers[id].identity && s'.ledgers[id].state == s.ledgers[id].state
            && s'.ledgers[id].approval == s.ledgers[id].approval && s'.ledgers[id].receipts == s.ledgers[id].receipts
            && s'.ledgers[id].change == s.ledgers[id].change
            && s'.ledgers[id].grants == s.ledgers[id].grants && s'.ledgers[id].outbox == s.ledgers[id].outbox
            && s'.ledgers[id].timeline
               == s.ledgers[id].timeline
                  + (if s.ledgers[id].pipelineStatus == SUCCESS then []
                     else [PipelineVerified(s.ledgers[id].pipelineId, s.ledgers[id].identity.commitSha)])
            && s'.live == s.live && s'.store == s.store && s'.clock == s.clock && s'.jtis == s.jtis
  {
    PipelineHookHeader();
    hide IsPipelineHook;
  }

  /** The state after the release itself was observed as its own target. */
  lemma ObserveRelease(cfg: Config, s: State, v: Identity)
    requires Schemas.ValidIdentity(v)
    ensures var s' := Next(cfg, s, Observe(v, true));
            && s'.ledgers == s.ledgers && LiveOf(s', v) == Some(v) && s'.clock == s.clock && s'.jtis == s.jtis
            && (cfg.mode == GoBoundary ==> Boundary.Lookup(s'.store, v) == Some(v))
  {
    Schemas.ValidExactly(v);
    hide Schemas.ValidIdentity;
    hide Schemas.ParseIdentity;
    hide Boundary.TargetKey;
  }

  /** Without an agent's context each executor answers for a target it knows. */
  lemma HumanAnswered(cfg: Config, targets: Boundary.Targets, e: Identity, o: Identity, now: int)
    requires cfg.mode == GoBoundary ==> Boundary.Lookup(targets, e).Some?
    ensures CallExecutor(cfg, targets, e, o, None, now).Some?
  {
  }

  lemma ObserveApproveExecute(cfg: Config, s: State, id: string) returns (rs: seq<Request>)
    requires id in s.ledgers && s.ledgers[id].approval == None && s.ledgers[id].pipelineStatus == SUCCESS
    requires Schemas.ValidIdentity(s.ledgers[id].identity) && |s.ledgers[id].receipts| <= 1
    ensures id in Run(cfg, s, rs).ledgers && |Run(cfg, s, rs).ledgers[id].receipts| == |s.ledgers[id].receipts| + 1
  {
    hide Run;
    hide CallExecutor;
    hide Boundary.Lookup;
    hide Schemas.ValidIdentity;
    hide Next;
    hide LiveOf;
    var v := s.ledgers[id].identity;
    var s1 := Next(cfg, s, Observe(v, true));
    ObserveRelease(cfg, s, v);
    HumanAnswered(cfg, s1.store, v, v, s1.clock);
    FreshKey(s.ledgers[id].receipts);
    var key := if FindReceipt(s.ledgers[id].receipts, "attempt-1") == None then "attempt-1" else "attempt-2";
    ApproveThenExecuteAgain(cfg, s1, id, "approver", key);
    RunOne(cfg, s, Observe(v, true));
    RunConcat(cfg, s, [Observe(v, true)], [Approve(id, "approver"), Execute(id, key, true)]);
    rs := [Observe(v, true)] + [Approve(id, "approver"), Execute(id, key, true)];
  }

  lemma OneMore(cfg: Config, s: State, id: string) returns (rs: seq<Request>)
    requires Inv(cfg, s) && id in s.ledgers && s.ledgers[id].state.Ended? && s.ledgers[id].approval == None
    requires Verifiable(cfg, s, id)
    ensures id in Run(cfg, s, rs).ledgers && |Run(cfg, s, rs).ledgers[id].receipts| == |s.ledgers[id].receipts| + 1
  {
    hide Run;
    hide Next;
    hide ReportsSuccess;
    EndedFacts(cfg, s, id);
    hide Inv;
    hide Schemas.ValidIdentity;
    if s.ledgers[id].pipelineStatus == SUCCESS {
      rs := ObserveApproveExecute(cfg, s, id);
    } else {
      var body :| ReportsSuccess(cfg, s, s.ledgers[id], body);
      var hook := Webhook(body, PIPELINE_HOOK);
      HookVerifies(cfg, s, id, body);
      var rest := ObserveApproveExecute(cfg, Next(cfg, s, hook), id);
      RunOne(cfg, s, hook);
      RunConcat(cfg, s, [hook], rest);
      rs := [hook] + rest;
    }
  }

  lemma EndedFacts(cfg: Config, s: State, id: string)
    requires Inv(cfg, s) && id in s.ledgers && s.ledgers[id].state.Ended? && s.ledgers[id].approval == None
    ensures Schemas.ValidIdentity(s.ledgers[id].identity) && |s.ledgers[id].receipts| <= 1
  {
    assert LedgerInv(cfg, id, s.ledgers[id]);
    hide Replays;
    hide VerifiedFirst;
    hide ApprovedOnce;
    hide GrantsScoped;
    hide Schemas.ValidIdentity;
  }

  // ---------------------------------------------------------------- never another

  /** Ended without an approval, unverified, and no delivery left that could verify. */
  ghost predicate Stuck(cfg: Config, s: State, id: string) {
    && id in s.ledgers && s.ledgers[id].state.Ended? && s.ledgers[id].approval == None && !Verifiable(cfg, s, id)
  }

  /** A status comes from a delivery not recorded before, for the epoch's pipeline. */
  lemma HookFrom(cfg: Config, s: State, r: Request, id: string)
    requires id in s.ledgers && MoveOf(cfg, s, r, id).Hook?
    ensures var m := MoveOf(cfg, s, r, id);
            && r.Webhook? && |r.body| <= cfg.maxBody && cfg.sha(r.body) !in s.hooks
            && cfg.parse(r.body) == Attributes(s.ledgers[id].pipelineId, m.status, m.sha)
  {
    hide IsPipelineHook;
    hide CallExecutor;
    hide Admit;
    hide IssueDecide;
    hide IssueToken;
  }

  lemma StuckMove(cfg: Config, s: State, r: Request, id: string)
    requires Stuck(cfg, s, id)
    ensures var l, m := s.ledgers[id], MoveOf(cfg, s, r, id);
            && Applicable(l, m)
            && var l' := ApplyMove(id, l, m);
            && l'.state == l.state && l'.approval == None && l'.receipts == l.receipts && l'.pipelineStatus != SUCCESS
            && l'.pipelineId == l.pipelineId && l'.identity == l.identity
  {
    hide Step;
    hide IsPipelineHook;
    hide CallExecutor;
    hide Admit;
    hide IssueDecide;
    hide IssueToken;
    hide Policy.EvaluatePolicy;
    hide Schemas.IsAction;
    var l, m := s.ledgers[id], MoveOf(cfg, s, r, id);
    StepIsMove(cfg, s, r, id);
    if m.Hook? {
      HookFrom(cfg, s, r, id);
      assert !ReportsSuccess(cfg, s, l, r.body);
    }
  }

  lemma StuckStays(cfg: Config, s: State, r: Request, id: string)
    requires Stuck(cfg, s, id)
    ensures Stuck(cfg, Next(cfg, s, r), id) && Next(cfg, s, r).ledgers[id].receipts == s.ledgers[id].receipts
  {
    hide Step;
    hide MoveOf;
    hide ApplyMove;
    hide Enabled;
    StepIsMove(cfg, s, r, id);
    StuckMove(cfg, s, r, id);
    HooksStep(cfg, s, r);
    var s' := Next(cfg, s, r);
    forall body
      ensures !ReportsSuccess(cfg, s', s'.ledgers[id], body)
    {
      assert !ReportsSuccess(cfg, s, s.ledgers[id], body);
    }
  }

  lemma {:induction false} StuckForever(cfg: Config, s: State, rs: seq<Request>, id: string)
    requires Stuck(cfg, s, id)
    ensures Stuck(cfg, Run(cfg, s, rs), id) && Run(cfg, s, rs).ledgers[id].receipts == s.ledgers[id].receipts
  {
    hide Next;
    hide Verifiable;
    if rs != [] {
      StuckForever(cfg, s, rs[..|rs| - 1], id);
      StuckStays(cfg, Run(cfg, s, rs[..|rs| - 1]), rs[|rs| - 1], id);
    }
  }

  /** In every state of every run an ended epoch is terminal exactly when it has an approval or its
      pipeline can no longer come to be verified. */
  lemma EndedIsTerminalExactly(cfg: Config, s: State, id: string)
    requires Inv(cfg, s) && id in s.ledgers && s.ledgers[id].state.Ended?
    ensures NeverAnother(cfg, s, id) <==> s.ledgers[id].approval.Some? || !Verifiable(cfg, s, id)
  {
    hide Run;
    hide Inv;
    hide Verifiable;
    if s.ledgers[id].approval.Some? {
      forall rs
        ensures id in Run(cfg, s, rs).ledgers ==> Run(cfg, s, rs).ledgers[id].receipts == s.ledgers[id].receipts
      {
        SpentIsFinal(cfg, s, rs, id);
      }
    } else if Verifiable(cfg, s, id) {
      var rs := OneMore(cfg, s, id);
      assert Run(cfg, s, rs).ledgers[id].receipts != s.ledgers[id].receipts;
    } else {
      forall rs
        ensures id in Run(cfg, s, rs).ledgers ==> Run(cfg, s, rs).ledgers[id].receipts == s.ledgers[id].receipts
      {
        StuckForever(cfg, s, rs, id);
      }
    }
  }
}
