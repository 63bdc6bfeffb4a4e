/** Every interleaving leaves the database of a serial run of its committed requests. */
module Serializability {
  import opened Text
  import opened Identities
  import opened Comparison
  import opened Capability
  import opened Ledgers
  import opened Workflow
  import opened Interleaving
  import opened Moves
  import opened Invariants
  import opened History
  import Boundary
  import Schemas
  import opened LockInvariant

  // ---------------------------------------------------------------- the serial run beside the interleaved one

  /** The execution has read its target, and will be committed. */
  ghost predicate Pending(cfg: Config, c: Conc, rest: seq<Action>, tid: nat)
    requires tid in c.threads
  {
    var t := c.threads[tid];
    && Executing(t.request)
    && (t.phase.Answered? || (cfg.mode == InProcess && t.phase.Checked?))
    && WillCommit(cfg, c, rest, tid)
  }

  function PendingResult(cfg: Config, t: Thread): Result
    requires t.phase.Answered? || t.phase.Checked?
  {
    if t.phase.Answered? then t.phase.result else LocalCompare(cfg.sha, t.phase.snap.identity, t.phase.observed)
  }

  /** What the serial run already shows for this epoch: a pending execution counts as done. */
  ghost function Shown(cfg: Config, c: Conc, rest: seq<Action>, id: string): Ledger
    requires id in c.db.ledgers
  {
    if id in c.locks && c.locks[id] in c.threads && Pending(cfg, c, rest, c.locks[id])
    then ExecWrite(id, c.db.ledgers[id], c.threads[c.locks[id]].request.key, PendingResult(cfg, c.threads[c.locks[id]]))
    else c.db.ledgers[id]
  }

  /** Equal but for the contents of ledgers. */
  ghost predicate SameFrame(a: State, b: State) {
    && a.ledgers.Keys == b.ledgers.Keys && a.live == b.live && a.store == b.store && a.undelivered == b.undelivered
    && a.hooks == b.hooks && a.jtis == b.jtis && a.clock == b.clock
  }

  /** `serial` is the serial run's database when the interleaved run is at `c` with `rest` to go. */
  ghost predicate Matches(cfg: Config, c: Conc, rest: seq<Action>, serial: State) {
    && SameFrame(serial, c.db)
    && forall id :: id in c.db.ledgers ==> serial.ledgers[id] == Shown(cfg, c, rest, id)
  }

  lemma MatchesAtEnd(cfg: Config, c: Conc, serial: State)
    requires Matches(cfg, c, [], serial)
    ensures serial == c.db
  {
    assert forall id :: id in c.db.ledgers ==> serial.ledgers[id] == c.db.ledgers[id];
    assert serial.ledgers == c.db.ledgers;
  }

  /** Whether a thread commits later is settled by the rest of the schedule. */
  lemma WillCommitNext(cfg: Config, c: Conc, trace: seq<Action>, tid: nat)
    requires trace != [] && tid in c.threads && !(trace[0] == Commit(tid) && ReadyToCommit(c.threads[tid]))
    ensures WillCommit(cfg, c, trace, tid) <==> WillCommit(cfg, CStep(cfg, c, trace[0]), trace[1..], tid)
  {
    hide CStep;
  }

  /** An epoch whose holder does nothing in this step is shown the same after it. */
  lemma ShownFrame(cfg: Config, c: Conc, trace: seq<Action>, id: string)
    requires trace != [] && id in c.db.ledgers
    requires var c' := CStep(cfg, c, trace[0]);
             && Same(c'.db.ledgers, c.db.ledgers, id)
             && (id in c.locks <==> id in c'.locks)
             && (id in c.locks ==>
                   && c'.locks[id] == c.locks[id] && c.locks[id] in c.threads && c.locks[id] in c'.threads
                   && c'.threads[c.locks[id]] == c.threads[c.locks[id]]
                   && !(trace[0] == Commit(c.locks[id]) && ReadyToCommit(c.threads[c.locks[id]])))
    ensures Shown(cfg, CStep(cfg, c, trace[0]), trace[1..], id) == Shown(cfg, c, trace, id)
  {
    hide CStep;
    hide ExecWrite;
    hide LocalCompare;
    if id in c.locks {
      WillCommitNext(cfg, c, trace, c.locks[id]);
      hide WillCommit;
    }
  }

  // ---------------------------------------------------------------- one step at a time

  /** Environment requests read only parts of a ledger that an execution does not write. */
  ghost predicate SameShape(a: Ledger, b: Ledger) {
    a.identity == b.identity && a.pipelineId == b.pipelineId && a.pipelineStatus == b.pipelineStatus
      && a.change == b.change
  }

  lemma PublishFrame(cfg: Config, a: State, b: State, v: Identity, delivered: bool)
    requires SameFrame(a, b)
    ensures SameFrame(Publish(cfg, a, v, delivered).0, Publish(cfg, b, v, delivered).0)
    ensures Publish(cfg, b, v, delivered).0.ledgers == b.ledgers
  {
    hide Boundary.TargetKey;
  }

  lemma InsertFrame(cfg: Config, a: State, b: State, i: string, v: Option<Identity>, p: Option<string>,
                    requester: string)
    requires SameFrame(a, b)
    ensures var a', b' := InsertEpoch(cfg, a, i, v, p, requester).0, InsertEpoch(cfg, b, i, v, p, requester).0;
            SameFrame(a', b') && forall id :: id in b'.ledgers && id !in b.ledgers ==> a'.ledgers[id] == b'.ledgers[id]
  {
    hide NewLedger;
  }

  lemma ObserveFrame(cfg: Config, a: State, b: State, raw: Identity, delivered: bool)
    requires SameFrame(a, b)
    ensures SameFrame(StepObserve(cfg, a, raw, delivered).0, StepObserve(cfg, b, raw, delivered).0)
    ensures StepObserve(cfg, b, raw, delivered).0.ledgers == b.ledgers
  {
    hide Schemas.ParseIdentity;
    hide Publish;
    if Schemas.ParseIdentity(raw).Some? {
      PublishFrame(cfg, a, b, Schemas.ParseIdentity(raw).value, delivered);
    }
  }

  lemma DriftFrame(cfg: Config, a: State, b: State, i: string, f: Field, value: string, delivered: bool)
    requires SameFrame(a, b) && (i in b.ledgers ==> SameShape(a.ledgers[i], b.ledgers[i]))
    ensures SameFrame(StepDrift(cfg, a, i, f, value, delivered).0, StepDrift(cfg, b, i, f, value, delivered).0)
    ensures StepDrift(cfg, b, i, f, value, delivered).0.ledgers == b.ledgers
  {
    hide Schemas.ParseText;
    hide Publish;
    hide Set;
    if i in b.ledgers && LiveOf(b, b.ledgers[i].identity).Some? && Schemas.ParseText(value, 1, 256).Some? {
      PublishFrame(cfg, a, b, Set(LiveOf(b, b.ledgers[i].identity).value, f, Schemas.ParseText(value, 1, 256).value),
                   delivered);
    }
  }

  lemma WebhookFrame(cfg: Config, a: State, b: State, body: string, header: string)
    requires SameFrame(a, b)
    ensures SameFrame(StepWebhook(cfg, a, body, header).0, StepWebhook(cfg, b, body, header).0)
    ensures StepWebhook(cfg, b, body, header).0.ledgers.Keys == b.ledgers.Keys
  {
    hide IsPipelineHook;
    hide HookWrite;
  }

  lemma DeliverFrame(a: State, b: State, v: Identity)
    requires SameFrame(a, b)
    ensures SameFrame(StepDeliver(a, v).0, StepDeliver(b, v).0)
    ensures StepDeliver(b, v).0.ledgers == b.ledgers
  {
    hide Boundary.TargetKey;
  }

  lemma ChangeFrame(a: State, b: State, i: string, c: Change)
    requires SameFrame(a, b) && (i in b.ledgers ==> SameShape(a.ledgers[i], b.ledgers[i]))
    ensures SameFrame(StepChange(a, i, c).0, StepChange(b, i, c).0)
    ensures StepChange(b, i, c).0.ledgers.Keys == b.ledgers.Keys
  {
    hide Schemas.IsAction;
    hide AddChange;
  }

  lemma EvidenceFrame(a: State, b: State, i: string, kind: string, digest: string)
    requires SameFrame(a, b)
    ensures SameFrame(StepEvidence(a, i, kind, digest).0, StepEvidence(b, i, kind, digest).0)
    ensures StepEvidence(b, i, kind, digest).0.ledgers.Keys == b.ledgers.Keys
  {
    hide Record;
  }

  lemma EnvironmentFrame(cfg: Config, a: State, b: State, r: Request)
    requires !Locking(r) && SameFrame(a, b)
    requires forall id :: id in b.ledgers ==> SameShape(a.ledgers[id], b.ledgers[id])
    ensures SameFrame(Next(cfg, a, r), Next(cfg, b, r))
    ensures forall id :: id in Next(cfg, b, r).ledgers && id !in b.ledgers ==>
              Next(cfg, a, r).ledgers[id] == Next(cfg, b, r).ledgers[id]
  {
    hide Schemas.ParseIdentity;
    hide Schemas.ParseText;
    hide Schemas.IsAction;
    hide SameShape;
    hide InsertEpoch;
    hide StepObserve;
    hide StepDrift;
    hide StepDeliver;
    hide StepChange;
    hide StepEvidence;
    hide StepWebhook;
    match r
    case CreateEpoch(i, raw, p, requester) =>
      InsertFrame(cfg, a, b, i, Schemas.ParseIdentity(raw), Schemas.ParseText(p, 1, 80), requester);
    case Observe(raw, delivered) => ObserveFrame(cfg, a, b, raw, delivered);
    case Drift(i, f, value, delivered) => DriftFrame(cfg, a, b, i, f, value, delivered);
    case Webhook(body, header) => WebhookFrame(cfg, a, b, body, header);
    case Deliver(v) => DeliverFrame(a, b, v);
    case RequestChange(i, c) => ChangeFrame(a, b, i, c);
    case AttachEvidence(i, kind, digest) => EvidenceFrame(a, b, i, kind, digest);
    case _ =>
  }

  lemma EnvironmentMove(cfg: Config, a: State, b: State, r: Request, id: string)
    requires !Locking(r) && SameFrame(a, b) && id in b.ledgers
    requires SameShape(a.ledgers[id], b.ledgers[id])
    ensures MoveOf(cfg, a, r, id) == MoveOf(cfg, b, r, id)
    ensures var m := MoveOf(cfg, b, r, id); m.Stay? || m.OpenChange? || m.Hook? || m.Attach?
  {
    hide Schemas.IsAction;
    hide IsPipelineHook;
  }

  lemma EventMoveChanges(id: string, l: Ledger, m: Move)
    requires m.OpenChange? || m.Attach?
    ensures ApplyMove(id, l, m) != l
  {
    assert |ApplyMove(id, l, m).timeline| == |l.timeline| + 1;
  }

  lemma MoveBesideExec(id: string, l: Ledger, key: string, r: Result, m: Move)
    requires m.Stay? || m.OpenChange? || m.Hook? || m.Attach?
    requires ApplyMove(id, l, m) == l
    ensures ApplyMove(id, ExecWrite(id, l, key, r), m) == ExecWrite(id, l, key, r)
  {
    if m.OpenChange? || m.Attach? {
      EventMoveChanges(id, l, m);
      assert false;
    }
    if m.Hook? {
      HookIdle(l, m.status, m.sha);
    }
  }

  lemma HookIdle(l: Ledger, status: string, sha: string)
    requires HookWrite(l, l.pipelineId, status, sha) == l
    ensures HookStatus(l, status, sha) == l.pipelineStatus
  {
    assert HookWrite(l, l.pipelineId, status, sha).pipelineStatus == HookStatus(l, status, sha);
  }

  lemma EnvironmentMatches(cfg: Config, c: Conc, trace: seq<Action>, serial: State)
    requires trace != [] && trace[0].Environment? && CInv(cfg, c) && Matches(cfg, c, trace, serial)
    requires Unblocked(cfg, c, trace[0].request)
    ensures Matches(cfg, CStep(cfg, c, trace[0]), trace[1..], Next(cfg, serial, trace[0].request))
  {
    hide Next;
    hide WillCommit;
    hide LocalCompare;
    var r, c' := trace[0].request, CStep(cfg, c, trace[0]);
    forall id | id in c.db.ledgers
      ensures SameShape(serial.ledgers[id], c.db.ledgers[id])
    {
    }
    EnvironmentFrame(cfg, serial, c.db, r);
    var serial' := Next(cfg, serial, r);
    forall id | id in c'.db.ledgers
      ensures serial'.ledgers[id] == Shown(cfg, c', trace[1..], id)
    {
      if id !in c.db.ledgers {
        UnknownUnlocked(cfg, c, id);
      } else {
        EnvironmentLedger(cfg, c, trace, serial, id);
      }
    }
  }

  lemma UnknownUnlocked(cfg: Config, c: Conc, id: string)
    requires CInv(cfg, c) && id !in c.db.ledgers
    ensures id !in c.locks
  {
    hide ArrivedWell;
    if id in c.locks {
      ThreadKnown(cfg, c, c.locks[id]);
    }
  }

  lemma EnvironmentLedger(cfg: Config, c: Conc, trace: seq<Action>, serial: State, id: string)
    requires trace != [] && trace[0].Environment? && CInv(cfg, c) && Matches(cfg, c, trace, serial)
    requires Unblocked(cfg, c, trace[0].request) && id in c.db.ledgers
    requires SameShape(serial.ledgers[id], c.db.ledgers[id])
    requires SameFrame(Next(cfg, serial, trace[0].request), Next(cfg, c.db, trace[0].request))
    ensures id in Next(cfg, serial, trace[0].request).ledgers
    ensures id in CStep(cfg, c, trace[0]).db.ledgers
    ensures Next(cfg, serial, trace[0].request).ledgers[id] == Shown(cfg, CStep(cfg, c, trace[0]), trace[1..], id)
  {
    hide Next;
    hide MoveOf;
    hide ApplyMove;
    hide Enabled;
    hide ExecWrite;
    hide LocalCompare;
    hide ArrivedWell;
    hide PhaseWell;
    var r := trace[0].request;
    StepIsMove(cfg, c.db, r, id);
    StepIsMove(cfg, serial, r, id);
    EnvironmentMove(cfg, serial, c.db, r, id);
    if id in c.locks {
      ShownFrame(cfg, c, trace, id);
      if Pending(cfg, c, trace, c.locks[id]) {
        var t := c.threads[c.locks[id]];
        MoveBesideExec(id, c.db.ledgers[id], t.request.key, PendingResult(cfg, t), MoveOf(cfg, c.db, r, id));
      }
    }
  }

  /** A step of thread `tid` that leaves the database alone matches if its own epoch does. */
  ghost predicate OwnStep(cfg: Config, c: Conc, a: Action, tid: nat)
    requires tid in c.threads && Locking(c.threads[tid].request)
  {
    var c', id := CStep(cfg, c, a), c.threads[tid].request.id;
    && c'.db.ledgers.Keys == c.db.ledgers.Keys
    && (forall other :: other in c.db.ledgers && other != id ==> c'.db.ledgers[other] == c.db.ledgers[other])
    && (forall other :: other != id ==> (other in c.locks <==> other in c'.locks))
    && (forall other :: other != id && other in c.locks ==> c'.locks[other] == c.locks[other])
    && (forall u :: u in c.threads && u != tid ==> u in c'.threads && c'.threads[u] == c.threads[u])
    && (forall u :: u != tid ==> a != Commit(u))
  }

  lemma OthersShown(cfg: Config, c: Conc, trace: seq<Action>, tid: nat, id: string)
    requires trace != [] && CInv(cfg, c) && tid in c.threads && Locking(c.threads[tid].request)
    requires OwnStep(cfg, c, trace[0], tid) && id in c.db.ledgers && id != c.threads[tid].request.id
    ensures id in CStep(cfg, c, trace[0]).db.ledgers
    ensures Shown(cfg, CStep(cfg, c, trace[0]), trace[1..], id) == Shown(cfg, c, trace, id)
  {
    hide CStep;
    hide ArrivedWell;
    hide PhaseWell;
    ShownFrame(cfg, c, trace, id);
  }

  /** Matching carries over a thread's step when its own epoch matches afterwards. */
  lemma OwnMatches(cfg: Config, c: Conc, trace: seq<Action>, tid: nat, serial: State, serial': State)
    requires trace != [] && CInv(cfg, c) && tid in c.threads && Locking(c.threads[tid].request)
    requires OwnStep(cfg, c, trace[0], tid) && Matches(cfg, c, trace, serial)
    requires c.threads[tid].request.id in c.db.ledgers
    requires SameFrame(serial', CStep(cfg, c, trace[0]).db)
    requires forall other :: other in c.db.ledgers && other != c.threads[tid].request.id ==>
               serial'.ledgers[other] == serial.ledgers[other]
    requires serial'.ledgers[c.threads[tid].request.id]
             == Shown(cfg, CStep(cfg, c, trace[0]), trace[1..], c.threads[tid].request.id)
    ensures Matches(cfg, CStep(cfg, c, trace[0]), trace[1..], serial')
  {
    hide CStep;
    hide Shown;
    hide CInv;
    forall other | other in c.db.ledgers && other != c.threads[tid].request.id
      ensures serial'.ledgers[other] == Shown(cfg, CStep(cfg, c, trace[0]), trace[1..], other)
    {
      OthersShown(cfg, c, trace, tid, other);
    }
  }

  lemma FinishOwn(cfg: Config, c: Conc, a: Action, tid: nat)
    requires CInv(cfg, c) && tid in c.threads && Locking(c.threads[tid].request)
    requires CStep(cfg, c, a) == Finish(c, tid) && forall u :: u != tid ==> a != Commit(u)
    ensures OwnStep(cfg, c, a, tid)
  {
    hide CStep;
    hide ArrivedWell;
    hide PhaseWell;
  }

  lemma SetPhaseOwn(cfg: Config, c: Conc, a: Action, tid: nat, p: Phase)
    requires CInv(cfg, c) && tid in c.threads && Locking(c.threads[tid].request)
    requires CStep(cfg, c, a) == SetPhase(c, tid, p) && forall u :: u != tid ==> a != Commit(u)
    ensures OwnStep(cfg, c, a, tid)
  {
    hide CStep;
    hide ArrivedWell;
    hide PhaseWell;
  }

  /** A request that ends without committing was never pending, and leaves its epoch as it is. */
  lemma GiveUpMatches(cfg: Config, c: Conc, trace: seq<Action>, tid: nat, serial: State)
    requires trace != [] && CInv(cfg, c) && tid in c.threads && Matches(cfg, c, trace, serial)
    requires CStep(cfg, c, trace[0]) == Finish(c, tid) && (forall u :: trace[0] != Commit(u))
    ensures Matches(cfg, CStep(cfg, c, trace[0]), trace[1..], serial)
  {
    hide CStep;
    hide ExecWrite;
    hide LocalCompare;
    assert ThreadWell(cfg, c, tid);
    hide ArrivedWell;
    hide PhaseWell;
    ThreadKnown(cfg, c, tid);
    var id := c.threads[tid].request.id;
    FinishOwn(cfg, c, trace[0], tid);
    WillCommitNext(cfg, c, trace, tid);
    assert !WillCommit(cfg, Finish(c, tid), trace[1..], tid);
    assert !WillCommit(cfg, c, trace, tid);
    hide WillCommit;
    FinishShown(cfg, c, trace, tid);
    OwnMatches(cfg, c, trace, tid, serial, serial);
  }

  lemma FinishShown(cfg: Config, c: Conc, trace: seq<Action>, tid: nat)
    requires trace != [] && CInv(cfg, c) && tid in c.threads && Locking(c.threads[tid].request)
             && c.threads[tid].request.id in c.db.ledgers
    requires CStep(cfg, c, trace[0]) == Finish(c, tid) && (forall u :: trace[0] != Commit(u))
    requires !WillCommit(cfg, c, trace, tid)
    ensures Shown(cfg, CStep(cfg, c, trace[0]), trace[1..], c.threads[tid].request.id)
            == Shown(cfg, c, trace, c.threads[tid].request.id)
  {
    hide CStep;
    hide WillCommit;
    hide ExecWrite;
    hide LocalCompare;
    hide ArrivedWell;
    hide PhaseWell;
    var id := c.threads[tid].request.id;
    if id !in c.locks || c.locks[id] != tid {
      ShownFrame(cfg, c, trace, id);
    }
  }

  /** A step that leaves the database, the locks and their holders alone. */
  lemma FrameMatches(cfg: Config, c: Conc, trace: seq<Action>, serial: State)
    requires trace != [] && CInv(cfg, c) && Matches(cfg, c, trace, serial)
    requires CStep(cfg, c, trace[0]).db == c.db && CStep(cfg, c, trace[0]).locks == c.locks
    requires forall u :: u in c.threads ==>
               && u in CStep(cfg, c, trace[0]).threads && CStep(cfg, c, trace[0]).threads[u] == c.threads[u]
               && !(trace[0] == Commit(u) && ReadyToCommit(c.threads[u]))
    ensures Matches(cfg, CStep(cfg, c, trace[0]), trace[1..], serial)
  {
    hide CStep;
    hide ArrivedWell;
    hide PhaseWell;
    hide ReadyToCommit;
    forall id | id in c.db.ledgers
      ensures Shown(cfg, CStep(cfg, c, trace[0]), trace[1..], id) == Shown(cfg, c, trace, id)
    {
      ShownFrame(cfg, c, trace, id);
    }
  }

  lemma LockOwn(cfg: Config, c: Conc, tid: nat)
    requires CInv(cfg, c) && DoLock(c, tid) != c
    ensures tid in c.threads && Locking(c.threads[tid].request) && c.threads[tid].request.id in c.db.ledgers
    ensures OwnStep(cfg, c, Lock(tid), tid)
    ensures var id, c' := c.threads[tid].request.id, CStep(cfg, c, Lock(tid));
            c'.db == c.db && id !in c.locks && id in c'.locks && c'.locks[id] == tid
            && tid in c'.threads && c'.threads[tid].phase.Holding?
  {
    hide ArrivedWell;
    hide PhaseWell;
  }

  lemma LockMatches(cfg: Config, c: Conc, trace: seq<Action>, tid: nat, serial: State)
    requires trace != [] && trace[0] == Lock(tid) && CInv(cfg, c) && Matches(cfg, c, trace, serial)
    requires DoLock(c, tid) != c
    ensures Matches(cfg, CStep(cfg, c, trace[0]), trace[1..], serial)
  {
    LockOwn(cfg, c, tid);
    hide CStep;
    hide CInv;
    hide OwnStep;
    hide WillCommit;
    hide ExecWrite;
    hide LocalCompare;
    OwnMatches(cfg, c, trace, tid, serial, serial);
  }

  // ---------------------------------------------------------------- executions

  /** A request whose checks pass in one go writes exactly its receipt. */
  lemma ExecutesAtOnce(cfg: Config, s: State, t: Thread, o: Identity, r: Result)
    requires Executing(t.request) && ArrivedWell(cfg, s, t)
    requires var l := s.ledgers[t.request.id];
             && ExecDecide(l, t.ctx, t.request.key, LiveOf(s, l.identity)) == Proceed(o)
             && CallExecutor(cfg, s.store, l.identity, o, t.ctx, s.clock) == Some(r)
    ensures Next(cfg, s, t.request)
            == SetLedger(s, t.request.id, ExecWrite(t.request.id, s.ledgers[t.request.id], t.request.key, r))
  {
    hide Admit;
    hide ExecDecide;
    hide CallExecutor;
    hide ExecWrite;
  }

  /** Whether an execution goes ahead depends on the target's presence, not on its contents. */
  lemma DecideAny(l: Ledger, ctx: Option<Context>, key: string, o: Identity, o': Identity)
    requires ExecDecide(l, ctx, key, Some(o)) == Proceed(o)
    ensures ExecDecide(l, ctx, key, Some(o')) == Proceed(o')
  {
  }

  lemma GoIgnoresCopy(cfg: Config, targets: Boundary.Targets, e: Identity, o: Identity, o': Identity,
                      ctx: Option<Context>, now: int)
    requires cfg.mode == GoBoundary
    ensures CallExecutor(cfg, targets, e, o, ctx, now) == CallExecutor(cfg, targets, e, o', ctx, now)
  {
  }

  /** The holder's epoch, while nothing is pending, is the same in both runs. */
  lemma SerialEpoch(cfg: Config, c: Conc, rest: seq<Action>, tid: nat, serial: State)
    requires CInv(cfg, c) && tid in c.threads && Matches(cfg, c, rest, serial)
    requires !c.threads[tid].phase.Waiting? && !Pending(cfg, c, rest, tid)
    ensures var t := c.threads[tid];
            && Locking(t.request) && t.request.id in c.db.ledgers
            && serial.ledgers[t.request.id] == c.db.ledgers[t.request.id]
            && ArrivedWell(cfg, serial, t)
  {
    hide PhaseWell;
    hide ExecWrite;
    hide LocalCompare;
    hide WillCommit;
    hide Admit;
    assert ThreadWell(cfg, c, tid);
  }

  lemma ClockForward(cfg: Config, c: Conc, a: Action)
    requires CInv(cfg, c)
    ensures c.db.clock <= CStep(cfg, c, a).db.clock
  {
    hide Next;
    hide Admit;
    hide ExecDecide;
    hide CallExecutor;
    if a.Environment? {
      if Unblocked(cfg, c, a.request) {
        NextClockLive(cfg, c.db, a.request);
      }
    }
  }

  /** A checked execution stays as it is until its executor answers. */
  lemma CheckedNext(cfg: Config, c: Conc, a: Action, tid: nat)
    requires tid in c.threads && c.threads[tid].phase.Checked? && Executing(c.threads[tid].request)
    requires tid in CStep(cfg, c, a).threads
    ensures || CStep(cfg, c, a).threads[tid] == c.threads[tid]
            || (a.Call? && CallAnswer(cfg, c, c.threads[tid], a.reachable).Some?)
  {
    hide CallAnswer;
    hide Next;
    hide Admit;
    hide ExecDecide;
    hide CommitDb;
  }

  /** If an execution is committed later, the in-process executor would have answered it now. */
  lemma {:induction false} WillCommitAnswerable(cfg: Config, c: Conc, rest: seq<Action>, tid: nat)
    requires cfg.mode == InProcess && CInv(cfg, c) && tid in c.threads
    requires c.threads[tid].phase.Checked? && Executing(c.threads[tid].request)
    requires WillCommit(cfg, c, rest, tid)
    ensures var t := c.threads[tid];
            Boundary.LocalExecute(cfg.jws, cfg.sha, t.phase.snap.identity, t.phase.observed, t.ctx, c.db.clock).Some?
    decreases |rest|
  {
    hide CStep;
    hide Boundary.LocalExecute;
    hide LocalCompare;
    var t, c' := c.threads[tid], CStep(cfg, c, rest[0]);
    assert ThreadWell(cfg, c, tid);
    hide ExecDecide;
    hide Admit;
    CheckedNext(cfg, c, rest[0], tid);
    if c'.threads[tid] == t {
      CInvStep(cfg, c, rest[0]);
      hide CInv;
      WillCommitAnswerable(cfg, c', rest[1..], tid);
      ClockForward(cfg, c, rest[0]);
      AnswerableBefore(cfg, c.db, t, c'.db.clock);
    } else {
      LocalAnswer(cfg, c.db.store, t.phase.snap.identity, t.phase.observed, t.ctx, c.db.clock);
    }
  }

  lemma AnswerableBefore(cfg: Config, db: State, t: Thread, later: int)
    requires Locking(t.request) && ArrivedWell(cfg, db, t) && t.phase.Checked? && Executing(t.request)
    requires t.phase.snap == db.ledgers[t.request.id] && db.clock <= later
    requires Boundary.LocalExecute(cfg.jws, cfg.sha, t.phase.snap.identity, t.phase.observed, t.ctx, later).Some?
    ensures Boundary.LocalExecute(cfg.jws, cfg.sha, t.phase.snap.identity, t.phase.observed, t.ctx, db.clock).Some?
  {
    hide Admit;
    hide LocalCompare;
    hide PyVerify;
    if t.request.ExecuteAgent? {
      AnswerableEarlier(cfg, t.request.id, t.phase.snap, t.request.token, t.request.admittedAt, t.ctx.value,
                        t.phase.observed, db.clock, later);
    }
  }

  lemma StampMatches(cfg: Config, c: Conc, trace: seq<Action>, tid: nat, serial: State)
    requires trace != [] && trace[0] == Check(tid) && CInv(cfg, c) && Matches(cfg, c, trace, serial)
    requires tid in c.threads && c.threads[tid].phase.Holding? && c.threads[tid].request.Issue?
    ensures Matches(cfg, CStep(cfg, c, trace[0]), trace[1..], serial)
  {
    hide WillCommit;
    hide ExecWrite;
    hide LocalCompare;
    assert ThreadWell(cfg, c, tid);
    hide ArrivedWell;
    SetPhaseOwn(cfg, c, trace[0], tid, Stamped(c.threads[tid].phase.snap, c.db.clock));
    OwnMatches(cfg, c, trace, tid, serial, serial);
  }

  /** The in-process executor compares with the row read at the check: the execution stands there. */
  lemma CheckMatches(cfg: Config, c: Conc, trace: seq<Action>, tid: nat, serial: State)
    requires trace != [] && trace[0] == Check(tid) && CInv(cfg, c) && Matches(cfg, c, trace, serial)
    requires tid in c.threads && c.threads[tid].phase.Holding? && Executing(c.threads[tid].request)
    requires Decide(c, c.threads[tid]).Proceed?
    ensures Matches(cfg, CStep(cfg, c, trace[0]), trace[1..], Run(cfg, serial, Emit(cfg, c, trace[0], trace[1..])))
  {
    hide CStep;
    hide WillCommit;
    hide Shown;
    hide ExecWrite;
    hide LocalCompare;
    hide Boundary.LocalExecute;
    hide ExecDecide;
    hide ArrivedWell;
    var t, c' := c.threads[tid], CStep(cfg, c, trace[0]);
    var o := Decide(c, t).observed;
    var p := Checked(t.phase.snap, o);
    CheckIsSetPhase(cfg, c, trace[0]);
    EmitAtCheck(cfg, c, trace);
    assert ThreadWell(cfg, c, tid);
    SerialEpoch(cfg, c, trace, tid, serial);
    if cfg.mode == InProcess && WillCommit(cfg, c', trace[1..], tid) {
      assert Boundary.LocalExecute(cfg.jws, cfg.sha, t.phase.snap.identity, o, t.ctx, c.db.clock).Some? by {
        CInvStep(cfg, c, trace[0]);
        WillCommitAnswerable(cfg, c', trace[1..], tid);
      }
      CheckedSerially(cfg, c, tid, serial, o);
      RunOne(cfg, serial, t.request);
      PendingMatches(cfg, c, trace, tid, serial, p);
    } else {
      StillMatches(cfg, c, trace, tid, serial, p);
    }
  }

  lemma CheckIsSetPhase(cfg: Config, c: Conc, a: Action)
    requires a.Check? && a.tid in c.threads && c.threads[a.tid].phase.Holding? && Executing(c.threads[a.tid].request)
    requires Decide(c, c.threads[a.tid]).Proceed?
    ensures CStep(cfg, c, a)
            == SetPhase(c, a.tid, Checked(c.threads[a.tid].phase.snap, Decide(c, c.threads[a.tid]).observed))
  {
    hide ExecDecide;
  }

  lemma EmitAtCheck(cfg: Config, c: Conc, trace: seq<Action>)
    requires trace != [] && trace[0].Check? && trace[0].tid in c.threads
    requires c.threads[trace[0].tid].phase.Holding? && Executing(c.threads[trace[0].tid].request)
    requires Decide(c, c.threads[trace[0].tid]).Proceed?
    ensures Emit(cfg, c, trace[0], trace[1..])
            == if cfg.mode == InProcess && WillCommit(cfg, CStep(cfg, c, trace[0]), trace[1..], trace[0].tid)
               then [c.threads[trace[0].tid].request] else []
  {
    hide WillCommit;
    hide CStep;
    hide ExecDecide;
  }

  /** What the serial run does when the execution stands at its check. */
  lemma CheckedSerially(cfg: Config, c: Conc, tid: nat, serial: State, o: Identity)
    requires cfg.mode == InProcess && SameFrame(serial, c.db)
    requires tid in c.threads && c.threads[tid].phase.Holding? && Executing(c.threads[tid].request)
    requires ThreadWell(cfg, c, tid) && ArrivedWell(cfg, serial, c.threads[tid])
    requires serial.ledgers[c.threads[tid].request.id] == c.db.ledgers[c.threads[tid].request.id]
    requires Decide(c, c.threads[tid]) == Proceed(o)
    requires var t := c.threads[tid];
             Boundary.LocalExecute(cfg.jws, cfg.sha, t.phase.snap.identity, o, t.ctx, c.db.clock).Some?
    ensures var t := c.threads[tid];
            Next(cfg, serial, t.request)
            == SetLedger(serial, t.request.id,
                         ExecWrite(t.request.id, t.phase.snap, t.request.key,
                                   LocalCompare(cfg.sha, t.phase.snap.identity, o)))
  {
    hide ArrivedWell;
    hide Boundary.LocalExecute;
    hide LocalCompare;
    hide ExecWrite;
    hide ExecDecide;
    hide Next;
    hide CallExecutor;
    var t := c.threads[tid];
    LocalAnswer(cfg, serial.store, t.phase.snap.identity, o, t.ctx, serial.clock);
    ExecutesAtOnce(cfg, serial, t, o, LocalCompare(cfg.sha, t.phase.snap.identity, o));
  }

  /** The execution becomes pending and the serial run performs it. */
  lemma PendingMatches(cfg: Config, c: Conc, trace: seq<Action>, tid: nat, serial: State, p: Phase)
    requires trace != [] && CInv(cfg, c) && tid in c.threads && Matches(cfg, c, trace, serial)
    requires !c.threads[tid].phase.Waiting? && Locking(c.threads[tid].request) && (forall u :: trace[0] != Commit(u))
    requires CStep(cfg, c, trace[0]) == SetPhase(c, tid, p) && Pending(cfg, SetPhase(c, tid, p), trace[1..], tid)
    requires var t := c.threads[tid];
             && t.request.id in c.db.ledgers && serial.ledgers[t.request.id] == c.db.ledgers[t.request.id]
             && Next(cfg, serial, t.request)
                == SetLedger(serial, t.request.id, ExecWrite(t.request.id, c.db.ledgers[t.request.id], t.request.key,
                                                             PendingResult(cfg, t.(phase := p))))
    ensures Matches(cfg, CStep(cfg, c, trace[0]), trace[1..], Next(cfg, serial, c.threads[tid].request))
  {
    hide CStep;
    hide Next;
    hide WillCommit;
    hide ExecWrite;
    hide LocalCompare;
    assert ThreadWell(cfg, c, tid);
    hide ArrivedWell;
    hide PhaseWell;
    SetPhaseOwn(cfg, c, trace[0], tid, p);
    OwnMatches(cfg, c, trace, tid, serial, Next(cfg, serial, c.threads[tid].request));
  }

  /** The execution moves on without becoming pending; the serial run waits. */
  lemma StillMatches(cfg: Config, c: Conc, trace: seq<Action>, tid: nat, serial: State, p: Phase)
    requires trace != [] && CInv(cfg, c) && tid in c.threads && Matches(cfg, c, trace, serial)
    requires !c.threads[tid].phase.Waiting? && Locking(c.threads[tid].request) && (forall u :: trace[0] != Commit(u))
    requires CStep(cfg, c, trace[0]) == SetPhase(c, tid, p) && !Pending(cfg, SetPhase(c, tid, p), trace[1..], tid)
    requires c.threads[tid].request.id in c.db.ledgers
    requires serial.ledgers[c.threads[tid].request.id] == c.db.ledgers[c.threads[tid].request.id]
    ensures Matches(cfg, CStep(cfg, c, trace[0]), trace[1..], serial)
  {
    hide CStep;
    hide WillCommit;
    hide ExecWrite;
    hide LocalCompare;
    assert ThreadWell(cfg, c, tid);
    hide ArrivedWell;
    hide PhaseWell;
    SetPhaseOwn(cfg, c, trace[0], tid, p);
    OwnMatches(cfg, c, trace, tid, serial, serial);
  }

  // ---------------------------------------------------------------- calls

  lemma CallIsSetPhase(cfg: Config, c: Conc, a: Action)
    requires a.Call? && a.tid in c.threads && c.threads[a.tid].phase.Checked? && Executing(c.threads[a.tid].request)
    ensures var t := c.threads[a.tid];
            match CallAnswer(cfg, c, t, a.reachable)
            case None => CStep(cfg, c, a) == Finish(c, a.tid)
            case Some(r) => CStep(cfg, c, a) == SetPhase(c, a.tid, Answered(t.phase.snap, t.phase.observed, r))
  {
    hide CallAnswer;
  }

  lemma EmitAtCall(cfg: Config, c: Conc, trace: seq<Action>)
    requires trace != [] && trace[0].Call? && trace[0].tid in c.threads
    requires c.threads[trace[0].tid].phase.Checked? && Executing(c.threads[trace[0].tid].request)
    ensures Emit(cfg, c, trace[0], trace[1..])
            == if && cfg.mode == GoBoundary && CallAnswer(cfg, c, c.threads[trace[0].tid], trace[0].reachable).Some?
                  && WillCommit(cfg, CStep(cfg, c, trace[0]), trace[1..], trace[0].tid)
               then [c.threads[trace[0].tid].request] else []
  {
    hide WillCommit;
    hide CStep;
    hide CallAnswer;
  }

  /** The Go executor compares with its own target at the call: the execution stands there. */
  lemma CalledSerially(cfg: Config, c: Conc, tid: nat, serial: State, r: Result)
    requires cfg.mode == GoBoundary && SameFrame(serial, c.db)
    requires tid in c.threads && c.threads[tid].phase.Checked?
    requires ThreadWell(cfg, c, tid) && ArrivedWell(cfg, serial, c.threads[tid])
    requires serial.ledgers[c.threads[tid].request.id] == c.db.ledgers[c.threads[tid].request.id]
    requires CallAnswer(cfg, c, c.threads[tid], true) == Some(r)
    ensures var t := c.threads[tid];
            Next(cfg, serial, t.request)
              == SetLedger(serial, t.request.id, ExecWrite(t.request.id, t.phase.snap, t.request.key, r))
  {
    hide ArrivedWell;
    hide LocalCompare;
    hide ExecWrite;
    hide ExecDecide;
    hide Next;
    hide CallExecutor;
    var t := c.threads[tid];
    var l := t.phase.snap;
    var o := LiveOf(c.db, l.identity).value;
    DecideAny(l, t.ctx, t.request.key, t.phase.observed, o);
    GoIgnoresCopy(cfg, serial.store, l.identity, t.phase.observed, o, t.ctx, serial.clock);
    ExecutesAtOnce(cfg, serial, t, o, r);
  }

  lemma CallMatches(cfg: Config, c: Conc, trace: seq<Action>, serial: State)
    requires trace != [] && trace[0].Call? && CInv(cfg, c) && Matches(cfg, c, trace, serial)
    requires trace[0].tid in c.threads && c.threads[trace[0].tid].phase.Checked?
             && Executing(c.threads[trace[0].tid].request)
    ensures Matches(cfg, CStep(cfg, c, trace[0]), trace[1..], Run(cfg, serial, Emit(cfg, c, trace[0], trace[1..])))
  {
    hide CStep;
    hide WillCommit;
    hide Matches;
    hide LocalCompare;
    hide CallExecutor;
    hide ExecDecide;
    hide ArrivedWell;
    hide Run;
    var tid := trace[0].tid;
    var t := c.threads[tid];
    CallIsSetPhase(cfg, c, trace[0]);
    EmitAtCall(cfg, c, trace);
    hide Emit;
    RunNothing(cfg, serial);
    assert ThreadWell(cfg, c, tid);
    hide CInv;
    match CallAnswer(cfg, c, t, trace[0].reachable)
    case None => GiveUpMatches(cfg, c, trace, tid, serial);
    case Some(r) =>
      if cfg.mode == GoBoundary {
        AnsweredByGo(cfg, c, trace, serial, r);
      } else {
        LocalAnswer(cfg, c.db.store, t.phase.snap.identity, t.phase.observed, t.ctx, c.db.clock);
        AnsweredMatches(cfg, c, trace, tid, serial, Answered(t.phase.snap, t.phase.observed, r));
      }
  }

  lemma AnsweredByGo(cfg: Config, c: Conc, trace: seq<Action>, serial: State, r: Result)
    requires trace != [] && trace[0].Call? && CInv(cfg, c) && Matches(cfg, c, trace, serial) && cfg.mode == GoBoundary
    requires trace[0].tid in c.threads && c.threads[trace[0].tid].phase.Checked?
             && Executing(c.threads[trace[0].tid].request) && ThreadWell(cfg, c, trace[0].tid)
    requires CallAnswer(cfg, c, c.threads[trace[0].tid], trace[0].reachable) == Some(r)
    requires var t := c.threads[trace[0].tid];
             CStep(cfg, c, trace[0]) == SetPhase(c, trace[0].tid, Answered(t.phase.snap, t.phase.observed, r))
    ensures Matches(cfg, CStep(cfg, c, trace[0]), trace[1..], Run(cfg, serial, Emit(cfg, c, trace[0], trace[1..])))
  {
    hide CStep;
    hide WillCommit;
    hide Shown;
    hide ExecWrite;
    hide LocalCompare;
    hide CallExecutor;
    hide ExecDecide;
    hide ArrivedWell;
    hide Run;
    hide CInv;
    var tid := trace[0].tid;
    var t := c.threads[tid];
    var p := Answered(t.phase.snap, t.phase.observed, r);
    EmitAtCall(cfg, c, trace);
    hide Emit;
    RunNothing(cfg, serial);
    SerialEpoch(cfg, c, trace, tid, serial);
    if Pending(cfg, SetPhase(c, tid, p), trace[1..], tid) {
      CalledSerially(cfg, c, tid, serial, r);
      RunOne(cfg, serial, t.request);
      PendingMatches(cfg, c, trace, tid, serial, p);
    } else {
      StillMatches(cfg, c, trace, tid, serial, p);
    }
  }

  /** In process, the answer is the comparison the serial run has already recorded. */
  lemma AnsweredMatches(cfg: Config, c: Conc, trace: seq<Action>, tid: nat, serial: State, p: Phase)
    requires trace != [] && trace[0].Call? && CInv(cfg, c) && tid in c.threads && Matches(cfg, c, trace, serial)
    requires cfg.mode == InProcess && c.threads[tid].phase.Checked? && Executing(c.threads[tid].request)
    requires p == Answered(c.threads[tid].phase.snap, c.threads[tid].phase.observed, PendingResult(cfg, c.threads[tid]))
    requires CStep(cfg, c, trace[0]) == SetPhase(c, tid, p)
    ensures Matches(cfg, CStep(cfg, c, trace[0]), trace[1..], serial)
  {
    hide CStep;
    hide ExecWrite;
    hide LocalCompare;
    assert ThreadWell(cfg, c, tid);
    hide ArrivedWell;
    WillCommitNext(cfg, c, trace, tid);
    hide WillCommit;
    SetPhaseOwn(cfg, c, trace[0], tid, p);
    OwnMatches(cfg, c, trace, tid, serial, serial);
  }

  // ---------------------------------------------------------------- commits

  lemma CommitIsFinish(cfg: Config, c: Conc, tid: nat)
    requires tid in c.threads && ReadyToCommit(c.threads[tid])
    ensures CStep(cfg, c, Commit(tid)) == Finish(c.(db := CommitDb(cfg, c.db, c.threads[tid])), tid)
  {
    hide CommitDb;
  }

  lemma CommitOwn(cfg: Config, c: Conc, tid: nat)
    requires CInv(cfg, c) && tid in c.threads && ReadyToCommit(c.threads[tid])
    ensures ThreadWell(cfg, c, tid) && OwnStep(cfg, c, Commit(tid), tid)
    ensures CStep(cfg, c, Commit(tid)).db == CommitDb(cfg, c.db, c.threads[tid])
    ensures c.threads[tid].request.id !in CStep(cfg, c, Commit(tid)).locks
  {
    hide CStep;
    hide ArrivedWell;
    hide CommitDb;
    hide PhaseWell;
    hide Later;
    assert ThreadWell(cfg, c, tid);
    CommitLater(cfg, c.db, c.threads[tid]);
    CommitIsFinish(cfg, c, tid);
  }

  lemma EmitAtCommit(cfg: Config, c: Conc, a: Action, rest: seq<Action>)
    requires a.Commit? && a.tid in c.threads && ReadyToCommit(c.threads[a.tid])
    ensures Emit(cfg, c, a, rest) == SerialRequest(c.threads[a.tid])
  {
  }

  /** The serial request of a commit: an execution has had its turn already. */
  function SerialRequest(t: Thread): seq<Request> {
    match t.request
    case Approve(_, _) => [t.request]
    case Issue(id, requester, ttl, jti, _) =>
      if t.phase.Stamped? then [Issue(id, requester, ttl, jti, t.phase.at)] else []
    case _ => []
  }

  lemma ApprovesSerially(cfg: Config, s: State, t: Thread)
    requires t.request.Approve? && t.phase.Holding? && t.request.id in s.ledgers
             && s.ledgers[t.request.id] == t.phase.snap
    ensures Next(cfg, s, t.request) == CommitDb(cfg, s, t)
  {
    hide ApproveWrite;
  }

  lemma IssuesSerially(cfg: Config, s: State, t: Thread)
    requires t.request.Issue? && t.phase.Stamped? && t.request.id in s.ledgers
             && s.ledgers[t.request.id] == t.phase.snap
    requires t.phase.at <= s.clock
    ensures Next(cfg, s, Issue(t.request.id, t.request.requester, t.request.ttl, t.request.jti, t.phase.at))
            == CommitDb(cfg, s, t)
  {
    hide IssueWrite;
    hide NotePolicy;
    hide IssueDecide;
  }

  /** Writing the same ledger in both databases. */
  lemma SetFrame(a: State, b: State, id: string, l: Ledger, jtis: set<string>)
    requires SameFrame(a, b) && id in b.ledgers
    ensures SameFrame(SetLedger(a, id, l), SetLedger(b, id, l))
    ensures SameFrame(SetLedger(a, id, l).(jtis := jtis), SetLedger(b, id, l).(jtis := jtis))
    ensures SetLedger(a, id, l).ledgers == a.ledgers[id := l] && SetLedger(b, id, l).ledgers == b.ledgers[id := l]
    ensures a.jtis == b.jtis
  {
  }

  ghost predicate WrittenAlike(a: State, b: State, a': State, b': State, id: string)
    requires a.ledgers.Keys == b.ledgers.Keys && id in b.ledgers
  {
    && SameFrame(a', b') && id in b'.ledgers && a'.ledgers[id] == b'.ledgers[id]
    && (forall other :: other in a.ledgers && other != id ==>
          other in a'.ledgers && a'.ledgers[other] == a.ledgers[other])
  }

  /** A commit writes the same ledger and frame in both databases. */
  lemma CommitFrame(cfg: Config, a: State, b: State, t: Thread)
    requires Locking(t.request) && SameFrame(a, b) && t.request.id in b.ledgers
    requires a.ledgers[t.request.id] == b.ledgers[t.request.id]
    ensures WrittenAlike(a, b, CommitDb(cfg, a, t), CommitDb(cfg, b, t), t.request.id)
  {
    hide IssueDecide;
    hide IssueWrite;
    hide NotePolicy;
    hide ApproveWrite;
    hide ExecWrite;
    hide IssueToken;
    hide SetLedger;
    var id := t.request.id;
    match t.phase
    case Holding(snap) =>
      if t.request.Approve? {
        SetFrame(a, b, id, ApproveWrite(snap, t.request.approver), a.jtis);
      }
    case Stamped(snap, at) =>
      if t.request.Issue? {
        IssueFrame(cfg, a, b, t);
      }
    case Answered(snap, _, r) =>
      if Executing(t.request) {
        SetFrame(a, b, id, ExecWrite(id, snap, t.request.key, r), a.jtis);
      }
    case _ =>
  }

  lemma IssueFrame(cfg: Config, a: State, b: State, t: Thread)
    requires t.request.Issue? && t.phase.Stamped? && SameFrame(a, b) && t.request.id in b.ledgers
    requires a.ledgers[t.request.id] == b.ledgers[t.request.id]
    ensures WrittenAlike(a, b, CommitDb(cfg, a, t), CommitDb(cfg, b, t), t.request.id)
  {
    hide IssueDecide;
    hide IssueWrite;
    hide NotePolicy;
    hide IssueToken;
    hide SetLedger;
    var id, snap := t.request.id, t.phase.snap;
    IssuePolicy(snap);
    match IssueDecide(snap)
    case IssueRefused(_) =>
    case IssueNoted(d, _) => SetFrame(a, b, id, NotePolicy(snap, d), a.jtis);
    case IssueGranted(d) =>
      var i := IssueToken(cfg, id, snap, t.request.ttl, t.request.jti, t.phase.at);
      SetFrame(a, b, id, IssueWrite(id, snap, d, t.request.requester, i), a.jtis + {t.request.jti});
  }

  lemma CommitMatches(cfg: Config, c: Conc, trace: seq<Action>, serial: State)
    requires trace != [] && trace[0].Commit? && CInv(cfg, c) && Matches(cfg, c, trace, serial)
    requires trace[0].tid in c.threads && ReadyToCommit(c.threads[trace[0].tid])
    ensures Matches(cfg, CStep(cfg, c, trace[0]), trace[1..], Run(cfg, serial, Emit(cfg, c, trace[0], trace[1..])))
  {
    hide CStep;
    hide Matches;
    hide Emit;
    hide OwnStep;
    hide CInv;
    hide ThreadWell;
    hide CommitDb;
    hide Run;
    var tid := trace[0].tid;
    CommitOwn(cfg, c, tid);
    EmitAtCommit(cfg, c, trace[0], trace[1..]);
    if Executing(c.threads[tid].request) {
      RunNothing(cfg, serial);
      ExecutionCommits(cfg, c, trace, tid, serial);
    } else {
      OtherCommits(cfg, c, trace, tid, serial);
    }
  }

  /** The receipt becomes visible in the database where the serial run has shown it before. */
  lemma ExecutionCommits(cfg: Config, c: Conc, trace: seq<Action>, tid: nat, serial: State)
    requires trace != [] && trace[0] == Commit(tid) && CInv(cfg, c) && Matches(cfg, c, trace, serial)
    requires tid in c.threads && ReadyToCommit(c.threads[tid]) && Executing(c.threads[tid].request)
    requires ThreadWell(cfg, c, tid) && OwnStep(cfg, c, trace[0], tid)
    requires CStep(cfg, c, trace[0]).db == CommitDb(cfg, c.db, c.threads[tid])
    requires c.threads[tid].request.id !in CStep(cfg, c, trace[0]).locks
    ensures Matches(cfg, CStep(cfg, c, trace[0]), trace[1..], serial)
  {
    hide CStep;
    hide ArrivedWell;
    hide ExecWrite;
    hide LocalCompare;
    hide WillCommit;
    hide OwnStep;
    hide CommitDb;
    hide CInv;
    var t := c.threads[tid];
    var id := t.request.id;
    ReceiptShown(cfg, c, trace, tid);
    ReceiptWritten(cfg, c.db, t);
    OwnMatches(cfg, c, trace, tid, serial, serial);
  }

  lemma ReceiptShown(cfg: Config, c: Conc, trace: seq<Action>, tid: nat)
    requires trace != [] && trace[0] == Commit(tid) && tid in c.threads && ThreadWell(cfg, c, tid)
    requires ReadyToCommit(c.threads[tid]) && Executing(c.threads[tid].request)
    ensures var t := c.threads[tid];
            Shown(cfg, c, trace, t.request.id) == ExecWrite(t.request.id, t.phase.snap, t.request.key, t.phase.result)
  {
    hide CStep;
    hide ArrivedWell;
    hide ExecWrite;
    hide LocalCompare;
  }

  lemma ReceiptWritten(cfg: Config, db: State, t: Thread)
    requires Executing(t.request) && t.phase.Answered? && t.request.id in db.ledgers
    ensures CommitDb(cfg, db, t)
            == SetLedger(db, t.request.id, ExecWrite(t.request.id, t.phase.snap, t.request.key, t.phase.result))
  {
    hide ExecWrite;
  }

  lemma OtherCommits(cfg: Config, c: Conc, trace: seq<Action>, tid: nat, serial: State)
    requires trace != [] && trace[0] == Commit(tid) && CInv(cfg, c) && Matches(cfg, c, trace, serial)
    requires tid in c.threads && ReadyToCommit(c.threads[tid]) && !Executing(c.threads[tid].request)
    requires ThreadWell(cfg, c, tid) && OwnStep(cfg, c, trace[0], tid)
    requires CStep(cfg, c, trace[0]).db == CommitDb(cfg, c.db, c.threads[tid])
    requires c.threads[tid].request.id !in CStep(cfg, c, trace[0]).locks
    ensures Matches(cfg, CStep(cfg, c, trace[0]), trace[1..], Run(cfg, serial, SerialRequest(c.threads[tid])))
  {
    hide CStep;
    hide ArrivedWell;
    hide Next;
    hide Run;
    hide ExecWrite;
    hide LocalCompare;
    hide WillCommit;
    hide CommitDb;
    hide CInv;
    hide OwnStep;
    var t := c.threads[tid];
    SerialEpoch(cfg, c, trace, tid, serial);
    CommitFrame(cfg, serial, c.db, t);
    if t.request.Approve? {
      ApprovesSerially(cfg, serial, t);
    } else {
      IssuesSerially(cfg, serial, t);
    }
    RunOne(cfg, serial, SerialRequest(t)[0]);
    OwnMatches(cfg, c, trace, tid, serial, CommitDb(cfg, serial, t));
  }

  // ---------------------------------------------------------------- the theorem

  /** One step of the interleaving is matched by the serial requests it stands for. */
  lemma StepMatches(cfg: Config, c: Conc, trace: seq<Action>, serial: State)
    requires trace != [] && CInv(cfg, c) && Matches(cfg, c, trace, serial)
    ensures Matches(cfg, CStep(cfg, c, trace[0]), trace[1..], Run(cfg, serial, Emit(cfg, c, trace[0], trace[1..])))
  {
    hide Matches;
    hide CInv;
    hide Run;
    RunNothing(cfg, serial);
    match trace[0]
    case Environment(r) => EnvironmentStep(cfg, c, trace, serial);
    case Arrive(tid, r) => IdleMatches(cfg, c, trace, serial);
    case Lock(tid) =>
      if DoLock(c, tid) != c {
        LockMatches(cfg, c, trace, tid, serial);
      } else {
        IdleMatches(cfg, c, trace, serial);
      }
    case Check(tid) => CheckStep(cfg, c, trace, serial);
    case Call(tid, _) =>
      if tid in c.threads && c.threads[tid].phase.Checked? && Executing(c.threads[tid].request) {
        CallMatches(cfg, c, trace, serial);
      } else {
        IdleMatches(cfg, c, trace, serial);
      }
    case Commit(tid) =>
      if tid in c.threads && ReadyToCommit(c.threads[tid]) {
        CommitMatches(cfg, c, trace, serial);
      } else {
        IdleMatches(cfg, c, trace, serial);
      }
    case Crash(tid) =>
      if tid in c.threads && Locking(c.threads[tid].request) {
        GiveUpMatches(cfg, c, trace, tid, serial);
      } else {
        IdleMatches(cfg, c, trace, serial);
      }
  }

  /** An arrival, or an action that cannot happen now. */
  lemma IdleMatches(cfg: Config, c: Conc, trace: seq<Action>, serial: State)
    requires trace != [] && CInv(cfg, c) && Matches(cfg, c, trace, serial)
    requires trace[0].Arrive? || CStep(cfg, c, trace[0]) == c
    requires trace[0].Commit? ==> trace[0].tid !in c.threads || !ReadyToCommit(c.threads[trace[0].tid])
    ensures Matches(cfg, CStep(cfg, c, trace[0]), trace[1..], serial)
  {
    hide Admit;
    hide Matches;
    hide CInv;
    FrameMatches(cfg, c, trace, serial);
  }

  lemma EnvironmentStep(cfg: Config, c: Conc, trace: seq<Action>, serial: State)
    requires trace != [] && trace[0].Environment? && CInv(cfg, c) && Matches(cfg, c, trace, serial)
    ensures Matches(cfg, CStep(cfg, c, trace[0]), trace[1..], Run(cfg, serial, Emit(cfg, c, trace[0], trace[1..])))
  {
    hide Matches;
    hide CInv;
    hide Run;
    RunNothing(cfg, serial);
    if Unblocked(cfg, c, trace[0].request) {
      RunOne(cfg, serial, trace[0].request);
      EnvironmentMatches(cfg, c, trace, serial);
    } else {
      IdleMatches(cfg, c, trace, serial);
    }
  }

  lemma CheckStep(cfg: Config, c: Conc, trace: seq<Action>, serial: State)
    requires trace != [] && trace[0].Check? && CInv(cfg, c) && Matches(cfg, c, trace, serial)
    ensures Matches(cfg, CStep(cfg, c, trace[0]), trace[1..], Run(cfg, serial, Emit(cfg, c, trace[0], trace[1..])))
  {
    hide Matches;
    hide CInv;
    hide Run;
    hide ExecDecide;
    hide WillCommit;
    RunNothing(cfg, serial);
    var tid := trace[0].tid;
    if tid !in c.threads || !c.threads[tid].phase.Holding? {
      IdleMatches(cfg, c, trace, serial);
    } else if c.threads[tid].request.Issue? {
      StampMatches(cfg, c, trace, tid, serial);
    } else if !Executing(c.threads[tid].request) {
      IdleMatches(cfg, c, trace, serial);
    } else if Decide(c, c.threads[tid]).Proceed? {
      CheckMatches(cfg, c, trace, tid, serial);
    } else {
      GiveUpMatches(cfg, c, trace, tid, serial);
    }
  }

  lemma {:induction false} SimulatedSerially(cfg: Config, c: Conc, trace: seq<Action>, serial: State)
    requires CInv(cfg, c) && Matches(cfg, c, trace, serial)
    ensures CRun(cfg, c, trace).db == Run(cfg, serial, Serialize(cfg, c, trace))
    decreases |trace|
  {
    hide CInv;
    hide CStep;
    hide Emit;
    if trace == [] {
      MatchesAtEnd(cfg, c, serial);
    } else {
      hide Matches;
      var now := Emit(cfg, c, trace[0], trace[1..]);
      var later := Serialize(cfg, CStep(cfg, c, trace[0]), trace[1..]);
      StepMatches(cfg, c, trace, serial);
      CInvStep(cfg, c, trace[0]);
      SimulatedSerially(cfg, CStep(cfg, c, trace[0]), trace[1..], Run(cfg, serial, now));
      RunConcat(cfg, serial, now, later);
    }
  }

  /** Whatever the interleaving of arrivals, locks, checks, executor calls, commits, crashes and
      other requests, the database is that of running the committed requests one after another. */
  lemma EveryScheduleIsSerial(cfg: Config, trace: seq<Action>)
    ensures CRun(cfg, IDLE, trace).db == Run(cfg, START, Serialize(cfg, IDLE, trace))
  {
    hide CRun;
    hide Run;
    hide Serialize;
    SimulatedSerially(cfg, IDLE, trace, START);
  }

  /** So overlapping requests keep every invariant of the serial workflow. */
  lemma EveryScheduleKeepsInv(cfg: Config, trace: seq<Action>)
    ensures Inv(cfg, CRun(cfg, IDLE, trace).db)
  {
    EveryScheduleIsSerial(cfg, trace);
    RunKeepsInv(cfg, Serialize(cfg, IDLE, trace));
  }
}
