/** The row lock: between any two steps of an interleaved run, whoever holds an epoch's lock has
    the epoch's committed ledger in hand, and its decision still stands. */
module LockInvariant {
  import opened Text
  import opened Identities
  import opened Comparison
  import opened Capability
  import opened Ledgers
  import opened Workflow
  import opened Interleaving
  import opened Moves
  import opened History
  import Boundary
  import Policy
  import Schemas

  // ---------------------------------------------------------------- admission does not expire with the ledger

  lemma {:induction false} FindGrantStable(a: seq<Grant>, b: seq<Grant>, jti: string)
    requires a <= b && FindGrant(a, jti).Some?
    ensures FindGrant(b, jti) == FindGrant(a, jti)
  {
    if a[0].jti != jti {
      FindGrantStable(a[1..], b[1..], jti);
    }
  }

  /** An agent admitted on a ledger is admitted on every later one, with the same context. */
  lemma AdmitStable(cfg: Config, id: string, l: Ledger, l': Ledger, token: string, at: int)
    requires Extends(l, l') && Admit(cfg, id, l, token, at).Admitted?
    ensures Admit(cfg, id, l', token, at) == Admit(cfg, id, l, token, at)
  {
    hide PyVerify;
    hide Policy.EvaluatePolicy;
    FindGrantStable(l.grants, l'.grants, PyVerify(cfg.jws, token, ScopeOf(id, l), at).claims.jti);
  }

  /** The in-process executor accepts an admitted token earlier if it accepts it later. */
  lemma AnswerableEarlier(cfg: Config, id: string, l: Ledger, token: string, at: int, ctx: Context, o: Identity,
                          now: int, later: int)
    requires Admit(cfg, id, l, token, at) == Admitted(ctx) && at <= now <= later
    requires Boundary.LocalExecute(cfg.jws, cfg.sha, l.identity, o, Some(ctx), later).Some?
    ensures Boundary.LocalExecute(cfg.jws, cfg.sha, l.identity, o, Some(ctx), now).Some?
  {
    hide PyVerify;
    hide LocalCompare;
    hide Policy.EvaluatePolicy;
    AdmitFacts(cfg, id, l, token, at);
    var scope := ScopeOf(id, l);
    var v, w := PyVerify(cfg.jws, token, scope, at), PyVerify(cfg.jws, token, scope, later);
    AcceptedExactly(cfg.jws, token, scope, at, v.claims);
    AcceptedExactly(cfg.jws, token, scope, later, w.claims);
    AcceptedExactly(cfg.jws, token, scope, now, w.claims);
  }

  // ---------------------------------------------------------------- what the steps keep

  /** From one database to a later one. */
  ghost predicate Later(db: State, db': State) {
    && db.clock <= db'.clock
    && (forall k :: k in db.live ==> k in db'.live)
    && (forall id :: id in db.ledgers ==> id in db'.ledgers && Extends(db.ledgers[id], db'.ledgers[id]))
  }

  lemma ArrivedLater(cfg: Config, db: State, db': State, t: Thread)
    requires Locking(t.request) && ArrivedWell(cfg, db, t) && Later(db, db')
    ensures ArrivedWell(cfg, db', t)
  {
    hide Admit;
    hide Extends;
    if t.request.ExecuteAgent? {
      AdmitStable(cfg, t.request.id, db.ledgers[t.request.id], db'.ledgers[t.request.id], t.request.token,
                  t.request.admittedAt);
    }
  }

  lemma PhaseLater(cfg: Config, db: State, db': State, t: Thread)
    requires Locking(t.request) && PhaseWell(cfg, db, t) && Later(db, db')
    requires t.phase.Waiting? || Same(db'.ledgers, db.ledgers, t.request.id)
    ensures PhaseWell(cfg, db', t)
  {
    hide ExecDecide;
    hide LocalCompare;
    hide Extends;
  }

  lemma PublishClockLive(cfg: Config, db: State, v: Identity, delivered: bool)
    ensures var db' := Publish(cfg, db, v, delivered).0;
            db'.clock == db.clock && db'.jtis == db.jtis && forall k :: k in db.live ==> k in db'.live
  {
    hide Boundary.TargetKey;
  }

  lemma DriftClockLive(cfg: Config, db: State, id: string, f: Field, value: string, delivered: bool)
    ensures var db' := StepDrift(cfg, db, id, f, value, delivered).0;
            db'.clock == db.clock && db'.jtis == db.jtis && forall k :: k in db.live ==> k in db'.live
  {
    hide Schemas.ParseText;
    hide Publish;
    hide Set;
    var text := Schemas.ParseText(value, 1, 256);
    if text.Some? && id in db.ledgers && LiveOf(db, db.ledgers[id].identity).Some? {
      PublishClockLive(cfg, db, Set(LiveOf(db, db.ledgers[id].identity).value, f, text.value), delivered);
    }
  }

  lemma DeliverClockLive(db: State, v: Identity)
    ensures var db' := StepDeliver(db, v).0; db'.clock == db.clock && db'.jtis == db.jtis && db'.live == db.live
  {
    hide Boundary.TargetKey;
  }

  lemma InsertClockLive(cfg: Config, db: State, id: string, v: Option<Identity>, p: Option<string>, requester: string)
    ensures var db' := InsertEpoch(cfg, db, id, v, p, requester).0;
            db'.clock == db.clock && db'.jtis == db.jtis && db'.live == db.live
  {
    hide NewLedger;
  }

  lemma NextClockLive(cfg: Config, db: State, r: Request)
    requires !Locking(r)
    ensures db.clock <= Next(cfg, db, r).clock && Next(cfg, db, r).jtis == db.jtis
    ensures forall k :: k in db.live ==> k in Next(cfg, db, r).live
  {
    hide Schemas.ParseIdentity;
    hide Schemas.ParseText;
    hide Schemas.IsAction;
    hide Boundary.TargetKey;
    hide HookAll;
    hide NewLedger;
    hide Publish;
    hide StepDrift;
    hide IsPipelineHook;
    hide Record;
    hide AddChange;
    hide StepDeliver;
    hide InsertEpoch;
    match r
    case CreateEpoch(id, raw, p, requester) =>
      InsertClockLive(cfg, db, id, Schemas.ParseIdentity(raw), Schemas.ParseText(p, 1, 80), requester);
    case Observe(raw, delivered) =>
      if Schemas.ParseIdentity(raw).Some? {
        PublishClockLive(cfg, db, Schemas.ParseIdentity(raw).value, delivered);
      }
    case Deliver(v) => DeliverClockLive(db, v);
    case Drift(id, f, value, delivered) => DriftClockLive(cfg, db, id, f, value, delivered);
    case _ =>
  }

  lemma NextLater(cfg: Config, db: State, r: Request)
    requires !Locking(r)
    ensures Later(db, Next(cfg, db, r))
  {
    hide Step;
    hide Extends;
    NextClockLive(cfg, db, r);
    forall id | id in db.ledgers
      ensures id in Next(cfg, db, r).ledgers && Extends(db.ledgers[id], Next(cfg, db, r).ledgers[id])
    {
      hide MoveOf;
      hide ApplyMove;
      hide Enabled;
      StepIsMove(cfg, db, r, id);
      MoveExtends(cfg, id, db.ledgers[id], MoveOf(cfg, db, r, id));
    }
  }

  lemma ExtendsSelf(l: Ledger)
    ensures Extends(l, l)
  {
  }

  lemma IssueExtends(id: string, l: Ledger, d: Policy.PolicyDecision, requester: string, i: Issued)
    requires l.change.Some?
    ensures Extends(l, NotePolicy(l, d)) && Extends(l, IssueWrite(id, l, d, requester, i))
  {
  }

  lemma ExecExtends(id: string, l: Ledger, key: string, r: Result)
    ensures Extends(l, ExecWrite(id, l, key, r))
  {
  }

  lemma ApproveExtends(l: Ledger, approver: string)
    requires l.approval.None?
    ensures Extends(l, ApproveWrite(l, approver))
  {
  }

  /** The database moved on and nothing but this epoch's ledger changed. */
  ghost predicate LaterAt(db: State, db': State, id: string) {
    && Later(db, db') && db'.ledgers.Keys == db.ledgers.Keys
    && forall other :: other in db.ledgers && other != id ==> db'.ledgers[other] == db.ledgers[other]
  }

  lemma SetLater(db: State, id: string, l': Ledger, jtis: set<string>)
    requires id in db.ledgers && Extends(db.ledgers[id], l')
    ensures LaterAt(db, SetLedger(db, id, l').(jtis := jtis), id)
    ensures LaterAt(db, SetLedger(db, id, l'), id)
    ensures LaterAt(db, db, id)
  {
    hide Extends;
    forall other | other in db.ledgers
      ensures Extends(db.ledgers[other], db.ledgers[other])
    {
      ExtendsSelf(db.ledgers[other]);
    }
  }

  /** A commit changes only the epoch it holds, and only forward. */
  lemma CommitLater(cfg: Config, db: State, t: Thread)
    requires Locking(t.request) && PhaseWell(cfg, db, t)
    ensures LaterAt(db, CommitDb(cfg, db, t), t.request.id)
  {
    hide Extends;
    hide LaterAt;
    hide IssueWrite;
    hide NotePolicy;
    hide ApproveWrite;
    hide ExecWrite;
    hide IssueToken;
    hide ExecDecide;
    hide LocalCompare;
    hide Policy.EvaluatePolicy;
    var id, l := t.request.id, db.ledgers[t.request.id];
    ExtendsSelf(l);
    SetLater(db, id, l, db.jtis);
    match t.phase
    case Holding(snap) =>
      if t.request.Approve? && ApproveDecide(snap) == GiveApproval {
        ApproveExtends(l, t.request.approver);
        SetLater(db, id, ApproveWrite(l, t.request.approver), db.jtis);
      }
    case Stamped(snap, at) => IssueCommitLater(cfg, db, t);
    case Answered(snap, _, r) =>
      ExecExtends(id, l, t.request.key, r);
      SetLater(db, id, ExecWrite(id, l, t.request.key, r), db.jtis);
    case _ =>
  }

  lemma IssueCommitLater(cfg: Config, db: State, t: Thread)
    requires Locking(t.request) && PhaseWell(cfg, db, t) && t.phase.Stamped?
    ensures LaterAt(db, CommitDb(cfg, db, t), t.request.id)
  {
    hide Extends;
    hide LaterAt;
    hide IssueWrite;
    hide NotePolicy;
    hide IssueToken;
    hide IssueDecide;
    var id, l := t.request.id, db.ledgers[t.request.id];
    IssuePolicy(l);
    ExtendsSelf(l);
    SetLater(db, id, l, db.jtis);
    match IssueDecide(l)
    case IssueRefused(_) =>
    case IssueNoted(d, _) =>
      IssueExtends(id, l, d, "", Issued("", "", 0));
      SetLater(db, id, NotePolicy(l, d), db.jtis);
    case IssueGranted(d) =>
      var i := IssueToken(cfg, id, l, t.request.ttl, t.request.jti, t.phase.at);
      IssueExtends(id, l, d, t.request.requester, i);
      SetLater(db, id, IssueWrite(id, l, d, t.request.requester, i), db.jtis + {t.request.jti});
  }

  /** Threads that a step does not touch stay well when the database moves on. */
  lemma OthersWell(cfg: Config, c: Conc, c': Conc, tid: nat)
    requires tid in c.threads && ThreadWell(cfg, c, tid)
    requires tid in c'.threads && c'.threads[tid] == c.threads[tid]
    requires Later(c.db, c'.db)
    requires !c.threads[tid].phase.Waiting? ==>
               && Same(c'.db.ledgers, c.db.ledgers, c.threads[tid].request.id)
               && c.threads[tid].request.id in c'.locks && c'.locks[c.threads[tid].request.id] == tid
    ensures ThreadWell(cfg, c', tid)
  {
    hide ArrivedWell;
    hide PhaseWell;
    ArrivedLater(cfg, c.db, c'.db, c.threads[tid]);
    PhaseLater(cfg, c.db, c'.db, c.threads[tid]);
  }

  lemma SameDbLater(db: State)
    ensures Later(db, db)
  {
    hide Extends;
    forall id | id in db.ledgers ensures Extends(db.ledgers[id], db.ledgers[id]) { ExtendsSelf(db.ledgers[id]); }
  }

  lemma EnvironmentKeeps(cfg: Config, c: Conc, r: Request)
    requires CInv(cfg, c)
    ensures CInv(cfg, DoEnvironment(cfg, c, r))
  {
    hide Next;
    hide ArrivedWell;
    hide PhaseWell;
    if Unblocked(cfg, c, r) {
      var c' := DoEnvironment(cfg, c, r);
      NextLater(cfg, c.db, r);
      forall tid | tid in c'.threads
        ensures ThreadWell(cfg, c', tid)
      {
        assert ThreadWell(cfg, c, tid);
        hide Later;
        ThreadKnown(cfg, c, tid);
        OthersWell(cfg, c, c', tid);
      }
    }
  }

  lemma ThreadKnown(cfg: Config, c: Conc, tid: nat)
    requires tid in c.threads && ThreadWell(cfg, c, tid)
    ensures c.threads[tid].request.id in c.db.ledgers
  {
    hide ExecDecide;
    hide Admit;
  }

  lemma ArrivedThread(cfg: Config, c: Conc, tid: nat, r: Request)
    requires DoArrive(cfg, c, tid, r) != c
    ensures tid !in c.threads && tid in DoArrive(cfg, c, tid, r).threads
            && DoArrive(cfg, c, tid, r).threads[tid].phase.Waiting?
    ensures ThreadWell(cfg, DoArrive(cfg, c, tid, r), tid)
  {
    hide Admit;
    if r.ExecuteAgent? {
      AdmitToken(cfg, r.id, c.db.ledgers[r.id], r.token, c.db.clock);
    }
  }

  lemma ArriveKeeps(cfg: Config, c: Conc, tid: nat, r: Request)
    requires CInv(cfg, c)
    ensures CInv(cfg, DoArrive(cfg, c, tid, r))
  {
    hide Admit;
    hide ArrivedWell;
    hide PhaseWell;
    var c' := DoArrive(cfg, c, tid, r);
    SameDbLater(c.db);
    hide Later;
    if c' != c {
      ArrivedThread(cfg, c, tid, r);
      forall u | u in c'.threads && u != tid
        ensures ThreadWell(cfg, c', u)
      {
        assert ThreadWell(cfg, c, u);
        ThreadKnown(cfg, c, u);
        OthersWell(cfg, c, c', u);
      }
    }
  }

  lemma AdmitToken(cfg: Config, id: string, l: Ledger, token: string, at: int)
    ensures Admit(cfg, id, l, token, at).Admitted? ==> Admit(cfg, id, l, token, at).context.token == token
  {
    hide PyVerify;
    hide Policy.EvaluatePolicy;
  }

  /** Steps of one thread that leave the database alone: the thread itself is checked apart. */
  lemma ThreadStepKeeps(cfg: Config, c: Conc, c': Conc, tid: nat)
    requires CInv(cfg, c) && tid in c.threads && c'.db == c.db
    requires c'.threads.Keys == c.threads.Keys
    requires forall u :: u in c.threads && u != tid ==> c'.threads[u] == c.threads[u]
    requires forall id :: id in c.locks ==> id in c'.locks && c'.locks[id] == c.locks[id]
    requires ThreadWell(cfg, c', tid)
    ensures forall u :: u in c'.threads ==> ThreadWell(cfg, c', u)
  {
    SameDbLater(c.db);
    hide Later;
    forall u | u in c'.threads
      ensures ThreadWell(cfg, c', u)
    {
      if u != tid {
        assert ThreadWell(cfg, c, u);
        ThreadKnown(cfg, c, u);
        hide ArrivedWell;
        hide PhaseWell;
        OthersWell(cfg, c, c', u);
      }
    }
  }

  lemma FinishLocks(cfg: Config, c: Conc, tid: nat)
    requires LocksWell(c) && tid in c.threads && ThreadWell(cfg, c, tid)
    ensures LocksWell(Finish(c, tid))
    ensures forall u :: u in c.threads && u != tid && ThreadWell(cfg, c, u) && !c.threads[u].phase.Waiting? ==>
              c.threads[u].request.id in Finish(c, tid).locks && Finish(c, tid).locks[c.threads[u].request.id] == u
  {
    hide ArrivedWell;
    hide PhaseWell;
  }

  lemma FinishKeeps(cfg: Config, c: Conc, tid: nat)
    requires CInv(cfg, c) && tid in c.threads
    ensures CInv(cfg, Finish(c, tid))
  {
    var c' := Finish(c, tid);
    SameDbLater(c.db);
    hide Later;
    hide ArrivedWell;
    hide PhaseWell;
    assert ThreadWell(cfg, c, tid);
    FinishLocks(cfg, c, tid);
    hide LocksWell;
    forall u | u in c'.threads
      ensures ThreadWell(cfg, c', u)
    {
      assert ThreadWell(cfg, c, u);
      ThreadKnown(cfg, c, u);
      OthersWell(cfg, c, c', u);
    }
  }

  lemma LockKeeps(cfg: Config, c: Conc, tid: nat)
    requires CInv(cfg, c)
    ensures CInv(cfg, DoLock(c, tid))
  {
    hide Admit;
    hide ExecDecide;
    hide LocalCompare;
    var c' := DoLock(c, tid);
    if c' != c {
      assert ThreadWell(cfg, c, tid);
      assert ThreadWell(cfg, c', tid);
      ThreadStepKeeps(cfg, c, c', tid);
    }
  }

  lemma SetPhaseKeeps(cfg: Config, c: Conc, tid: nat, p: Phase)
    requires CInv(cfg, c) && tid in c.threads && !c.threads[tid].phase.Waiting? && !p.Waiting?
    requires Locking(c.threads[tid].request) && PhaseWell(cfg, c.db, c.threads[tid].(phase := p))
    ensures CInv(cfg, SetPhase(c, tid, p))
  {
    hide Admit;
    hide PhaseWell;
    assert ThreadWell(cfg, c, tid);
    var c' := SetPhase(c, tid, p);
    assert ThreadWell(cfg, c', tid);
    ThreadStepKeeps(cfg, c, c', tid);
  }

  lemma CheckKeeps(cfg: Config, c: Conc, tid: nat)
    requires CInv(cfg, c)
    ensures CInv(cfg, DoCheck(c, tid))
  {
    hide Admit;
    hide ArrivedWell;
    hide LocalCompare;
    hide FindReceipt;
    if tid in c.threads && c.threads[tid].phase.Holding? {
      assert ThreadWell(cfg, c, tid);
      var t := c.threads[tid];
      if t.request.Issue? {
        SetPhaseKeeps(cfg, c, tid, Stamped(t.phase.snap, c.db.clock));
      } else if Executing(t.request) {
        var d := Decide(c, t);
        if d.Proceed? {
          SetPhaseKeeps(cfg, c, tid, Checked(t.phase.snap, d.observed));
        } else {
          FinishKeeps(cfg, c, tid);
        }
      }
    }
  }

  lemma CallKeeps(cfg: Config, c: Conc, tid: nat, reachable: bool)
    requires CInv(cfg, c)
    ensures CInv(cfg, DoCall(cfg, c, tid, reachable))
  {
    hide Admit;
    hide ArrivedWell;
    hide CallExecutor;
    hide LocalCompare;
    hide ExecDecide;
    if tid in c.threads && c.threads[tid].phase.Checked? && Executing(c.threads[tid].request) {
      assert ThreadWell(cfg, c, tid);
      var t := c.threads[tid];
      if cfg.mode == InProcess {
        LocalAnswer(cfg, c.db.store, t.phase.snap.identity, t.phase.observed, t.ctx, c.db.clock);
      }
      match CallAnswer(cfg, c, t, reachable)
      case None => FinishKeeps(cfg, c, tid);
      case Some(r) => SetPhaseKeeps(cfg, c, tid, Answered(t.phase.snap, t.phase.observed, r));
    }
  }

  lemma CommitLocks(cfg: Config, c: Conc, tid: nat, db': State)
    requires LocksWell(c) && tid in c.threads && Locking(c.threads[tid].request)
    requires forall u :: u in c.threads ==> ThreadWell(cfg, c, u)
    ensures LocksWell(Finish(c.(db := db'), tid))
    ensures forall u :: u in c.threads && u != tid && Locking(c.threads[u].request) && !c.threads[u].phase.Waiting? ==>
              c.threads[u].request.id != c.threads[tid].request.id || c.threads[tid].phase.Waiting?
    ensures forall u :: u in c.threads && u != tid && Locking(c.threads[u].request) && !c.threads[u].phase.Waiting? ==>
              var locks := Finish(c.(db := db'), tid).locks;
              c.threads[u].request.id in locks && locks[c.threads[u].request.id] == u
  {
    hide ArrivedWell;
    hide PhaseWell;
  }

  lemma CommitKeeps(cfg: Config, c: Conc, tid: nat)
    requires CInv(cfg, c)
    ensures CInv(cfg, DoCommit(cfg, c, tid))
  {
    hide CommitDb;
    if tid in c.threads && ReadyToCommit(c.threads[tid]) {
      assert ThreadWell(cfg, c, tid);
      var t := c.threads[tid];
      var db' := CommitDb(cfg, c.db, t);
      CommitLater(cfg, c.db, t);
      var c' := Finish(c.(db := db'), tid);
      CommitLocks(cfg, c, tid, db');
      hide Later;
      hide ArrivedWell;
      hide LocksWell;
      forall u | u in c'.threads
        ensures ThreadWell(cfg, c', u)
      {
        assert ThreadWell(cfg, c, u);
        ThreadKnown(cfg, c, u);
        hide PhaseWell;
        OthersWell(cfg, c, c', u);
      }
    }
  }

  lemma CInvStep(cfg: Config, c: Conc, a: Action)
    requires CInv(cfg, c)
    ensures CInv(cfg, CStep(cfg, c, a))
  {
    hide CInv;
    match a
    case Environment(r) => EnvironmentKeeps(cfg, c, r);
    case Arrive(tid, r) => ArriveKeeps(cfg, c, tid, r);
    case Lock(tid) => LockKeeps(cfg, c, tid);
    case Check(tid) => CheckKeeps(cfg, c, tid);
    case Call(tid, reachable) => CallKeeps(cfg, c, tid, reachable);
    case Commit(tid) => CommitKeeps(cfg, c, tid);
    case Crash(tid) => if tid in c.threads { FinishKeeps(cfg, c, tid); }
  }
}
