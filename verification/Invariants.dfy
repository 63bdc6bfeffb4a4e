/** What every ledger keeps in every run. Each invariant is shown for a new ledger and for every
    enabled move, and so holds after every run. */
module Invariants {
  import opened Text
  import opened Identities
  import opened Comparison
  import opened Capability
  import opened Ledgers
  import opened Workflow
  import opened Moves
  import Policy
  import Schemas

  // ---------------------------------------------------------------- the timeline rebuilds the row

  /** The stored columns that the timeline determines. The key of a receipt and the requester of a
      grant issued by policy are not in any event. */
  datatype Columns = Columns(
    state: EpochState,
    approval: Option<Approval>,
    change: Option<Change>,
    grants: seq<(string, Scope, int)>,
    receipts: seq<(string, Result)>)

  function GrantColumns(grants: seq<Grant>): seq<(string, Scope, int)> {
    seq(|grants|, i requires 0 <= i < |grants| => (grants[i].jti, grants[i].scope, grants[i].expiresAt))
  }

  function ReceiptColumns(receipts: seq<Receipt>): seq<(string, Result)> {
    seq(|receipts|, i requires 0 <= i < |receipts| => (receipts[i].expectedFingerprint, receipts[i].result))
  }

  function Stored(l: Ledger): Columns {
    Columns(l.state, l.approval, l.change, GrantColumns(l.grants), ReceiptColumns(l.receipts))
  }

  function ReplayOne(c: Columns, e: Event): Columns {
    match e
    case ChangeRequested(change) => c.(change := Some(change))
    case ApprovalGiven(approver, fp) => c.(state := Approved, approval := Some(Approval(approver, fp)))
    case CapabilityIssued(jti, _, _, scope, expiresAt) => c.(grants := c.grants + [(jti, scope, expiresAt)])
    case OutcomeRecorded(fp, result) => c.(state := Ended(result.outcome), receipts := c.receipts + [(fp, result)])
    case _ => c
  }

  function Replay(events: seq<Event>): Columns {
    if events == [] then Columns(Draft, None, None, [], [])
    else ReplayOne(Replay(events[..|events| - 1]), events[|events| - 1])
  }

  lemma ReplaySnoc(events: seq<Event>, e: Event)
    ensures Replay(events + [e]) == ReplayOne(Replay(events), e)
  {
    assert (events + [e])[..|events|] == events;
  }

  ghost predicate Replays(l: Ledger) {
    Replay(l.timeline) == Stored(l)
  }

  lemma GrantColumnsSnoc(grants: seq<Grant>, g: Grant)
    ensures GrantColumns(grants + [g]) == GrantColumns(grants) + [(g.jti, g.scope, g.expiresAt)]
  {
  }

  lemma GrantReplays(id: string, l: Ledger, requester: string, issued: Issued)
    requires Replays(l) && l.change.Some?
    ensures Replays(IssueWrite(id, l, PolicyFor(l), requester, issued))
  {
    hide Policy.EvaluatePolicy;
    hide GrantColumns;
    hide ReceiptColumns;
    hide Replay;
    var l' := IssueWrite(id, l, PolicyFor(l), requester, issued);
    var n := |l.timeline|;
    assert l'.timeline == l.timeline + [l'.timeline[n]] + [l'.timeline[n + 1]];
    ReplaySnoc(l.timeline, l'.timeline[n]);
    ReplaySnoc(l.timeline + [l'.timeline[n]], l'.timeline[n + 1]);
    GrantColumnsSnoc(l.grants, l'.grants[|l.grants|]);
  }

  lemma ReceiptReplays(id: string, l: Ledger, key: string, r: Result)
    requires Replays(l)
    ensures Replays(ExecWrite(id, l, key, r))
  {
    var l' := ExecWrite(id, l, key, r);
    ReplaySnoc(l.timeline, OutcomeRecorded(l.fingerprint, r));
    assert ReceiptColumns(l'.receipts) == ReceiptColumns(l.receipts) + [(l.fingerprint, r)];
  }

  lemma HookReplays(l: Ledger, pipelineId: string, status: string, sha: string)
    requires Replays(l)
    ensures Replays(HookWrite(l, pipelineId, status, sha))
  {
    ReplaySnoc(l.timeline, PipelineVerified(pipelineId, sha));
    ReplaySnoc(l.timeline, PipelineRejected(pipelineId, sha, l.identity.commitSha));
  }

  lemma MoveReplays(cfg: Config, id: string, l: Ledger, m: Move)
    requires Enabled(cfg, id, l, m) && Replays(l) && Applicable(l, m)
    ensures Replays(ApplyMove(id, l, m))
  {
    hide Policy.EvaluatePolicy;
    hide Enabled;
    hide Replay;
    match m
    case Stay =>
    case OpenChange(c) => ReplaySnoc(l.timeline, ChangeRequested(c));
    case Hook(status, sha) => HookReplays(l, l.pipelineId, status, sha);
    case Bless(approver) => ReplaySnoc(l.timeline, ApprovalGiven(approver, l.fingerprint));
    case Note => ReplaySnoc(l.timeline, NotePolicy(l, PolicyFor(l)).timeline[|l.timeline|]);
    case GrantTo(requester, issued) => GrantReplays(id, l, requester, issued);
    case Receive(c) => ReceiptReplays(id, l, c.key, c.result);
    case Attach(kind, digest) => ReplaySnoc(l.timeline, EvidenceAttached(kind, digest));
  }

  // ---------------------------------------------------------------- receipts and their budget

  /** Executions an epoch can still have. An epoch that an agent executed from DRAFT can still be
      approved, because `approve_epoch` does not look at the state. */
  function Budget(l: Ledger): nat {
    match l.state
    case Draft => 2
    case Approved => 1
    case Ended(_) => if l.approval.None? then 1 else 0
  }

  ghost predicate WithinBudget(l: Ledger) {
    && |l.receipts| + Budget(l) <= 2
    && (l.state == Draft ==> l.approval == None && l.receipts == [])
    && (l.state == Approved ==> l.approval.Some?)
  }

  lemma MoveWithinBudget(cfg: Config, id: string, l: Ledger, m: Move)
    requires Enabled(cfg, id, l, m) && WithinBudget(l) && Applicable(l, m)
    ensures WithinBudget(ApplyMove(id, l, m))
    ensures Budget(ApplyMove(id, l, m)) <= Budget(l)
    ensures m.Receive? ==> Budget(ApplyMove(id, l, m)) < Budget(l) && l.state in {Draft, Approved}
    ensures |ApplyMove(id, l, m).receipts| == |l.receipts| + if m.Receive? then 1 else 0
  {
    hide CallExecutor;
    hide AdmittedContext;
    hide IssueDecide;
    hide Policy.EvaluatePolicy;
    hide FindReceipt;
  }

  // ---------------------------------------------------------------- keys, outbox, fingerprints

  ghost predicate KeysUnique(l: Ledger) {
    forall i, j :: 0 <= i < j < |l.receipts| ==> l.receipts[i].key != l.receipts[j].key
  }

  /** Receipt, outbox entry and outcome event say the same, one for one and in order. */
  ghost predicate Paired(id: string, l: Ledger) {
    && |l.outbox| == |l.receipts|
    && forall i :: 0 <= i < |l.receipts| ==> EntryOf(id, l.receipts[i]) == l.outbox[i]
  }

  function EntryOf(id: string, r: Receipt): OutboxEntry {
    OutboxEntry(id, r.result.outcome, r.expectedFingerprint, r.result.observedFingerprint)
  }

  /** The identity is a validated one, and the fingerprint, the approval's and every receipt's
      expected fingerprint are its fingerprint. */
  ghost predicate Frozen(cfg: Config, l: Ledger) {
    && Schemas.ValidIdentity(l.identity)
    && l.fingerprint == Fingerprint(Python, cfg.sha, l.identity)
    && OneFingerprint(l)
  }

  ghost predicate OneFingerprint(l: Ledger) {
    && (l.approval.Some? ==> l.approval.value.fingerprint == l.fingerprint)
    && forall i :: 0 <= i < |l.receipts| ==> l.receipts[i].expectedFingerprint == l.fingerprint
  }

  lemma {:induction false} FindReceiptFinds(receipts: seq<Receipt>, key: string)
    ensures FindReceipt(receipts, key) == None ==> forall i :: 0 <= i < |receipts| ==> receipts[i].key != key
    ensures FindReceipt(receipts, key).Some?
            ==> FindReceipt(receipts, key).value in receipts && FindReceipt(receipts, key).value.key == key
  {
    if receipts != [] && receipts[0].key != key {
      FindReceiptFinds(receipts[1..], key);
      assert forall i :: 1 <= i < |receipts| ==> receipts[i] == receipts[1..][i - 1];
    }
  }

  lemma MoveKeysUnique(cfg: Config, id: string, l: Ledger, m: Move)
    requires Enabled(cfg, id, l, m) && KeysUnique(l) && Applicable(l, m)
    ensures KeysUnique(ApplyMove(id, l, m))
  {
    hide CallExecutor;
    hide AdmittedContext;
    hide IssueDecide;
    hide FindReceipt;
    if m.Receive? {
      FindReceiptFinds(l.receipts, m.call.key);
    }
  }

  lemma ExecPaired(id: string, l: Ledger, key: string, r: Result)
    requires Paired(id, l)
    ensures Paired(id, ExecWrite(id, l, key, r))
  {
    var l' := ExecWrite(id, l, key, r);
    assert EntryOf(id, l'.receipts[|l.receipts|]) == l'.outbox[|l.receipts|];
    assert forall i :: 0 <= i < |l.receipts| ==> l'.receipts[i] == l.receipts[i] && l'.outbox[i] == l.outbox[i];
  }

  lemma MovePaired(cfg: Config, id: string, l: Ledger, m: Move)
    requires Enabled(cfg, id, l, m) && Paired(id, l) && Applicable(l, m)
    ensures Paired(id, ApplyMove(id, l, m))
  {
    if m.Receive? {
      ExecPaired(id, l, m.call.key, m.call.result);
    }
  }

  lemma MoveFrozen(cfg: Config, id: string, l: Ledger, m: Move)
    requires Enabled(cfg, id, l, m) && Frozen(cfg, l) && Applicable(l, m)
    ensures Frozen(cfg, ApplyMove(id, l, m))
  {
    MoveKeepsIdentity(cfg, id, l, m);
    MoveOneFingerprint(id, l, m);
  }

  lemma MoveOneFingerprint(id: string, l: Ledger, m: Move)
    requires OneFingerprint(l) && Applicable(l, m)
    ensures OneFingerprint(ApplyMove(id, l, m))
  {
  }

  lemma MoveKeepsIdentity(cfg: Config, id: string, l: Ledger, m: Move)
    requires Applicable(l, m)
    ensures ApplyMove(id, l, m).identity == l.identity && ApplyMove(id, l, m).fingerprint == l.fingerprint
    ensures ApplyMove(id, l, m).pipelineId == l.pipelineId && ApplyMove(id, l, m).createdBy == l.createdBy
  {
  }

  // ---------------------------------------------------------------- grants

  ghost predicate AgentChange(l: Ledger) {
    l.change.Some? ==> l.change.value.actorType == Policy.AGENT && Schemas.IsAction(l.change.value.action)
  }

  /** Every grant is unrevoked and for this epoch, its change and its fingerprint. */
  ghost predicate GrantsScoped(id: string, l: Ledger) {
    forall i :: 0 <= i < |l.grants| ==>
      l.change.Some? && !l.grants[i].revoked && l.grants[i].scope == ScopeOf(id, l) && l.grants[i].jti != ""
  }

  lemma ScopeKept(id: string, l: Ledger, l': Ledger)
    requires AgentChange(l) && GrantsScoped(id, l)
    requires l'.identity == l.identity && l'.fingerprint == l.fingerprint
    requires l'.change == l.change || l.change.None?
    requires AgentChange(l')
    requires l'.grants == l.grants
             || (&& l'.change.Some?
                 && exists g: Grant ::
                      l'.grants == l.grants + [g] && !g.revoked && g.scope == ScopeOf(id, l') && g.jti != "")
    ensures GrantsScoped(id, l')
  {
    hide Schemas.IsAction;
    assert l.grants == [] || l.grants[0].jti != "";
  }

  lemma MoveGrantsScoped(cfg: Config, id: string, l: Ledger, m: Move)
    requires Enabled(cfg, id, l, m) && AgentChange(l) && GrantsScoped(id, l) && Applicable(l, m)
    ensures AgentChange(ApplyMove(id, l, m)) && GrantsScoped(id, ApplyMove(id, l, m))
  {
    hide CallExecutor;
    hide AdmittedContext;
    hide ExecDecide;
    hide GrantsScoped;
    hide Schemas.IsAction;
    var l' := ApplyMove(id, l, m);
    MoveKeepsIdentity(cfg, id, l, m);
    if m.GrantTo? {
      assert l'.grants == l.grants + [Grant(m.issued.jti, ScopeOf(id, l), m.requester, m.issued.expiresAt, false)];
    }
    ScopeKept(id, l, l');
  }

  // ---------------------------------------------------------------- verified before anything else

  predicate Gated(e: Event) {
    e.ApprovalGiven? || e.PolicyEvaluated? || e.CapabilityIssued? || e.OutcomeRecorded?
  }

  predicate VerifiedAt(l: Ledger, events: seq<Event>, i: nat)
    requires i < |events|
  {
    events[i].PipelineVerified? && events[i].commitSha == l.identity.commitSha
  }

  ghost predicate VerifiedBefore(l: Ledger, n: nat)
    requires n <= |l.timeline|
  {
    exists i: nat :: i < n && VerifiedAt(l, l.timeline, i)
  }

  /** No gated event without an earlier verification of the epoch's own commit, whatever later
      webhooks do to the status. */
  ghost predicate VerifiedFirst(l: Ledger) {
    && (l.pipelineStatus == SUCCESS ==> VerifiedBefore(l, |l.timeline|))
    && (l.approval.Some? || l.grants != [] ==> VerifiedBefore(l, |l.timeline|))
    && forall n: nat :: n < |l.timeline| && Gated(l.timeline[n]) ==> VerifiedBefore(l, n)
  }

  lemma VerifiedGrows(l: Ledger, l': Ledger, n: nat)
    requires n <= |l.timeline| <= |l'.timeline| && l.timeline == l'.timeline[..|l.timeline|]
    requires l'.identity == l.identity && VerifiedBefore(l, n)
    ensures forall k :: n <= k <= |l'.timeline| ==> VerifiedBefore(l', k)
  {
    var i: nat :| i < n && VerifiedAt(l, l.timeline, i);
    assert VerifiedAt(l', l'.timeline, i);
  }

  /** Appending events keeps the order if the old ledger was verified or nothing gated comes. */
  lemma AppendKeepsOrder(l: Ledger, l': Ledger)
    requires VerifiedFirst(l) && l'.identity == l.identity
    requires |l.timeline| <= |l'.timeline| && l.timeline == l'.timeline[..|l.timeline|]
    requires VerifiedBefore(l, |l.timeline|)
             || forall n :: |l.timeline| <= n < |l'.timeline| ==> !Gated(l'.timeline[n])
    ensures forall n: nat :: n < |l'.timeline| && Gated(l'.timeline[n]) ==> VerifiedBefore(l', n)
    ensures VerifiedBefore(l, |l.timeline|) ==> VerifiedBefore(l', |l'.timeline|)
  {
    forall n: nat | n < |l'.timeline| && Gated(l'.timeline[n])
      ensures VerifiedBefore(l', n)
    {
      if n < |l.timeline| {
        assert l'.timeline[n] == l.timeline[n];
        VerifiedGrows(l, l', n);
      } else {
        VerifiedGrows(l, l', |l.timeline|);
      }
    }
    if VerifiedBefore(l, |l.timeline|) {
      VerifiedGrows(l, l', |l.timeline|);
    }
  }

  lemma HookVerifiedFirst(l: Ledger, status: string, sha: string)
    requires VerifiedFirst(l)
    ensures VerifiedFirst(HookWrite(l, l.pipelineId, status, sha))
  {
    var l' := HookWrite(l, l.pipelineId, status, sha);
    AppendKeepsOrder(l, l');
    if l'.pipelineStatus == SUCCESS && l.pipelineStatus != SUCCESS {
      assert VerifiedAt(l', l'.timeline, |l.timeline|);
    }
  }

  /** An admitted agent context exists only after a grant. */
  lemma {:induction false} FindGrantFinds(grants: seq<Grant>, jti: string)
    ensures FindGrant(grants, jti).Some?
            ==> FindGrant(grants, jti).value in grants && FindGrant(grants, jti).value.jti == jti
  {
    if grants != [] && grants[0].jti != jti {
      FindGrantFinds(grants[1..], jti);
    }
  }

  lemma AdmittedHasGrant(cfg: Config, id: string, l: Ledger, ctx: Context, now: int)
    requires AdmittedContext(cfg, id, l, ctx, now)
    ensures l.grants != []
  {
    hide PyVerify;
    var at :| at <= now && Admit(cfg, id, l, ctx.token, at) == Admitted(ctx);
    FindGrantFinds(l.grants, PyVerify(cfg.jws, ctx.token, ScopeOf(id, l), at).claims.jti);
  }

  /** Whatever gated event a move adds, the ledger was verified before. */
  lemma MoveNeedsVerified(cfg: Config, id: string, l: Ledger, m: Move)
    requires Enabled(cfg, id, l, m) && Applicable(l, m) && VerifiedFirst(l) && WithinBudget(l)
    requires m.Bless? || m.Note? || m.GrantTo? || m.Receive?
    ensures VerifiedBefore(l, |l.timeline|)
  {
    hide CallExecutor;
    hide AdmittedContext;
    hide Policy.EvaluatePolicy;
    hide VerifiedBefore;
    if m.Receive? && l.approval.None? {
      AdmittedHasGrant(cfg, id, l, m.call.ctx.value, m.call.now);
    }
  }

  lemma MoveAppends(id: string, l: Ledger, m: Move)
    requires Applicable(l, m)
    ensures |l.timeline| <= |ApplyMove(id, l, m).timeline| && l.timeline == ApplyMove(id, l, m).timeline[..|l.timeline|]
    ensures !(m.Bless? || m.Note? || m.GrantTo? || m.Receive?) ==>
              && ApplyMove(id, l, m).approval == l.approval && ApplyMove(id, l, m).grants == l.grants
              && forall n :: |l.timeline| <= n < |ApplyMove(id, l, m).timeline| ==>
                   !Gated(ApplyMove(id, l, m).timeline[n])
    ensures !m.Hook? ==> ApplyMove(id, l, m).pipelineStatus == l.pipelineStatus
  {
  }

  lemma MoveVerifiedFirst(cfg: Config, id: string, l: Ledger, m: Move)
    requires Enabled(cfg, id, l, m) && VerifiedFirst(l) && WithinBudget(l) && Applicable(l, m)
    ensures VerifiedFirst(ApplyMove(id, l, m))
  {
    hide VerifiedBefore;
    hide Enabled;
    hide WithinBudget;
    if m.Hook? {
      HookVerifiedFirst(l, m.status, m.sha);
    } else {
      hide ApplyMove;
      var l' := ApplyMove(id, l, m);
      MoveAppends(id, l, m);
      MoveKeepsIdentity(cfg, id, l, m);
      if m.Bless? || m.Note? || m.GrantTo? || m.Receive? {
        MoveNeedsVerified(cfg, id, l, m);
      }
      AppendKeepsOrder(l, l');
    }
  }

  // ---------------------------------------------------------------- one approval

  /** The timeline has one APPROVED event if the epoch has an approval and none otherwise. */
  ghost predicate ApprovedOnce(l: Ledger) {
    && (l.approval.Some? <==> exists i :: 0 <= i < |l.timeline| && l.timeline[i].ApprovalGiven?)
    && forall i, j :: 0 <= i < j < |l.timeline| && l.timeline[i].ApprovalGiven? ==> !l.timeline[j].ApprovalGiven?
  }

  lemma BlessApprovedOnce(l: Ledger, approver: string)
    requires ApprovedOnce(l) && l.approval.None?
    ensures ApprovedOnce(ApproveWrite(l, approver))
  {
    var l' := ApproveWrite(l, approver);
    assert l'.timeline[|l.timeline|].ApprovalGiven?;
  }

  lemma MoveApprovedOnce(cfg: Config, id: string, l: Ledger, m: Move)
    requires Enabled(cfg, id, l, m) && ApprovedOnce(l) && Applicable(l, m)
    ensures ApprovedOnce(ApplyMove(id, l, m))
  {
    hide CallExecutor;
    hide AdmittedContext;
    hide ExecDecide;
    hide IssueDecide;
    var l' := ApplyMove(id, l, m);
    if m.Bless? {
      BlessApprovedOnce(l, m.approver);
    } else {
      hide ApproveDecide;
      hide Policy.EvaluatePolicy;
      NoApprovalAppended(id, l, m);
      hide ApplyMove;
      forall i | 0 <= i < |l.timeline|
        ensures l'.timeline[i] == l.timeline[i]
      {
        assert l.timeline[i] == l'.timeline[..|l.timeline|][i];
      }
    }
  }

  lemma NoApprovalAppended(id: string, l: Ledger, m: Move)
    requires Applicable(l, m) && !m.Bless?
    ensures var l' := ApplyMove(id, l, m);
            && l'.approval == l.approval && |l.timeline| <= |l'.timeline| && l.timeline == l'.timeline[..|l.timeline|]
            && forall i :: |l.timeline| <= i < |l'.timeline| ==> !l'.timeline[i].ApprovalGiven?
  {
    hide Policy.EvaluatePolicy;
  }

  // ---------------------------------------------------------------- all of them, in every run

  ghost predicate LedgerInv(cfg: Config, id: string, l: Ledger) {
    && Replays(l) && WithinBudget(l) && KeysUnique(l) && Paired(id, l) && Frozen(cfg, l)
    && AgentChange(l) && GrantsScoped(id, l) && VerifiedFirst(l) && ApprovedOnce(l)
  }

  lemma MoveKeepsInv(cfg: Config, id: string, l: Ledger, m: Move)
    requires Enabled(cfg, id, l, m) && LedgerInv(cfg, id, l) && Applicable(l, m)
    ensures LedgerInv(cfg, id, ApplyMove(id, l, m))
  {
    MoveReplays(cfg, id, l, m);
    MoveWithinBudget(cfg, id, l, m);
    MoveKeysUnique(cfg, id, l, m);
    MovePaired(cfg, id, l, m);
    MoveFrozen(cfg, id, l, m);
    MoveGrantsScoped(cfg, id, l, m);
    MoveVerifiedFirst(cfg, id, l, m);
    MoveApprovedOnce(cfg, id, l, m);
  }

  lemma NewReplays(l: Ledger, e: Event)
    requires l.timeline == [e] && e.EpochCreated?
    requires l.state == Draft && l.approval == None && l.change == None && l.grants == [] && l.receipts == []
    ensures Replays(l)
  {
    ReplaySnoc([], e);
    assert [] + [e] == l.timeline;
  }

  lemma NewLedgerInv(cfg: Config, id: string, v: Identity, p: string, requester: string)
    requires Schemas.ValidIdentity(v)
    ensures LedgerInv(cfg, id, NewLedger(cfg.sha, v, p, requester))
  {
    hide Replays;
    hide Frozen;
    hide VerifiedFirst;
    hide ApprovedOnce;
    hide Fingerprint;
    hide Schemas.ValidIdentity;
    var l := NewLedger(cfg.sha, v, p, requester);
    NewReplays(l, l.timeline[0]);
    NewFrozen(cfg, l);
    NewVerifiedFirst(l);
    NewApprovedOnce(l);
  }

  lemma NewFrozen(cfg: Config, l: Ledger)
    requires Schemas.ValidIdentity(l.identity) && l.fingerprint == Fingerprint(Python, cfg.sha, l.identity)
    requires l.approval == None && l.receipts == []
    ensures Frozen(cfg, l)
  {
  }

  lemma NewVerifiedFirst(l: Ledger)
    requires l.pipelineStatus == "pending" && l.approval == None && l.grants == []
    requires |l.timeline| == 1 && l.timeline[0].EpochCreated?
    ensures VerifiedFirst(l)
  {
  }

  lemma NewApprovedOnce(l: Ledger)
    requires l.approval == None && |l.timeline| == 1 && l.timeline[0].EpochCreated?
    ensures ApprovedOnce(l)
  {
  }

  ghost predicate Inv(cfg: Config, s: State) {
    forall id :: id in s.ledgers ==> LedgerInv(cfg, id, s.ledgers[id])
  }

  lemma StepKeepsInv(cfg: Config, s: State, r: Request)
    requires Inv(cfg, s)
    ensures Inv(cfg, Next(cfg, s, r))
  {
    hide LedgerInv;
    hide MoveOf;
    hide Step;
    hide Enabled;
    hide ApplyMove;
    hide Schemas.ParseIdentity;
    hide Schemas.ParseText;
    var s' := Next(cfg, s, r);
    forall id | id in s'.ledgers
      ensures LedgerInv(cfg, id, s'.ledgers[id])
    {
      if id in s.ledgers {
        StepIsMove(cfg, s, r, id);
        MoveKeepsInv(cfg, id, s.ledgers[id], MoveOf(cfg, s, r, id));
      } else {
        StepCreates(cfg, s, r, id);
        Schemas.ParsedIsValid(r.raw);
        NewLedgerInv(cfg, id, Schemas.ParseIdentity(r.raw).value, Schemas.ParseText(r.pipelineId, 1, 80).value,
                     r.requester);
      }
    }
  }

  /** In every state of every run every ledger satisfies every invariant above. */
  lemma {:induction false} RunKeepsInv(cfg: Config, rs: seq<Request>)
    ensures Inv(cfg, Run(cfg, START, rs))
  {
    if rs != [] {
      RunKeepsInv(cfg, rs[..|rs| - 1]);
      StepKeepsInv(cfg, Run(cfg, START, rs[..|rs| - 1]), rs[|rs| - 1]);
    }
  }
}
