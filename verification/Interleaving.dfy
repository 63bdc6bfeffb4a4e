/** Requests that overlap. Approve, issue and execute requests run in steps: they arrive, take the
    epoch's row lock, read, call the executor, and commit or are rolled back. Steps of any number of
    requests interleave in any order. PostgreSQL makes other writers of a locked epoch wait: an
    UPDATE of the row, and an INSERT that refers to it, both conflict with SELECT ... FOR UPDATE. */
module Interleaving {
  import opened Text
  import opened Identities
  import opened Comparison
  import opened Capability
  import opened Ledgers
  import opened Workflow

  /** `Holding`: the lock is taken and the row and its dependents are read. `Stamped`: the token's
      clock is read. `Checked`: the execution was decided and the database's target row read.
      `Answered`: the executor has answered. */
  datatype Phase =
    | Waiting
    | Holding(snap: Ledger)
    | Stamped(snap: Ledger, at: int)
    | Checked(snap: Ledger, observed: Identity)
    | Answered(snap: Ledger, observed: Identity, result: Result)

  datatype Thread = Thread(request: Request, ctx: Option<Context>, phase: Phase)

  datatype Conc = Conc(db: State, locks: map<string, nat>, threads: map<nat, Thread>)

  const IDLE: Conc := Conc(START, map[], map[])

  datatype Action =
    | Environment(request: Request)
    | Arrive(tid: nat, request: Request)
    | Lock(tid: nat)
    | Check(tid: nat)
    | Call(tid: nat, reachable: bool)
    | Commit(tid: nat)
    | Crash(tid: nat)

  predicate Locking(r: Request) {
    r.Approve? || r.Issue? || r.Execute? || r.ExecuteAgent?
  }

  predicate Executing(r: Request) {
    r.Execute? || r.ExecuteAgent?
  }

  // ---------------------------------------------------------------- the steps

  /** A request of another kind runs at once, unless it would change a locked epoch. */
  ghost predicate Unblocked(cfg: Config, c: Conc, r: Request) {
    && !Locking(r)
    && forall id :: id in c.locks && id in c.db.ledgers ==> Same(Next(cfg, c.db, r).ledgers, c.db.ledgers, id)
  }

  predicate Same(a: map<string, Ledger>, b: map<string, Ledger>, id: string) {
    id in a && id in b && a[id] == b[id]
  }

  ghost function DoEnvironment(cfg: Config, c: Conc, r: Request): Conc {
    if Unblocked(cfg, c, r) then c.(db := Next(cfg, c.db, r)) else c
  }

  /** The checks before the lock: the epoch exists; an agent's capability is admitted now. */
  function DoArrive(cfg: Config, c: Conc, tid: nat, r: Request): Conc {
    if tid in c.threads || !Locking(r) || r.id !in c.db.ledgers then c
    else match r
      case Execute(id, key, _) => c.(threads := c.threads[tid := Thread(Execute(id, key, true), None, Waiting)])
      case ExecuteAgent(id, key, token, _, _) =>
        var a := Admit(cfg, id, c.db.ledgers[id], token, c.db.clock);
        if a.Admitted?
        then c.(threads := c.threads[tid := Thread(ExecuteAgent(id, key, token, c.db.clock, true), Some(a.context),
                                                   Waiting)])
        else c
      case _ => c.(threads := c.threads[tid := Thread(r, None, Waiting)])
  }

  /** `SELECT ... FOR UPDATE` returns the row as last committed, once nobody else holds it. */
  function DoLock(c: Conc, tid: nat): Conc {
    if tid !in c.threads || !c.threads[tid].phase.Waiting? || !Locking(c.threads[tid].request) then c
    else
      var t := c.threads[tid];
      if t.request.id in c.locks || t.request.id !in c.db.ledgers then c
      else c.(locks := c.locks[t.request.id := tid],
              threads := c.threads[tid := t.(phase := Holding(c.db.ledgers[t.request.id]))])
  }

  /** The transaction ends: the lock is released and the request is gone. */
  function Finish(c: Conc, tid: nat): Conc
    requires tid in c.threads && Locking(c.threads[tid].request)
  {
    var id := c.threads[tid].request.id;
    c.(threads := c.threads - {tid}, locks := if id in c.locks && c.locks[id] == tid then c.locks - {id} else c.locks)
  }

  function SetPhase(c: Conc, tid: nat, p: Phase): Conc
    requires tid in c.threads
  {
    c.(threads := c.threads[tid := c.threads[tid].(phase := p)])
  }

  /** What the execution decides from what it read under the lock. */
  function Decide(c: Conc, t: Thread): ExecDecision
    requires t.phase.Holding? && Executing(t.request)
  {
    ExecDecide(t.phase.snap, t.ctx, t.request.key, LiveOf(c.db, t.phase.snap.identity))
  }

  function DoCheck(c: Conc, tid: nat): Conc {
    if tid !in c.threads || !c.threads[tid].phase.Holding? then c
    else
      var t := c.threads[tid];
      if t.request.Issue? then SetPhase(c, tid, Stamped(t.phase.snap, c.db.clock))
      else if !Executing(t.request) then c
      else
        var d := Decide(c, t);
        if d.Proceed? then SetPhase(c, tid, Checked(t.phase.snap, d.observed)) else Finish(c, tid)
  }

  function CallAnswer(cfg: Config, c: Conc, t: Thread, reachable: bool): Option<Result>
    requires t.phase.Checked?
  {
    if reachable then CallExecutor(cfg, c.db.store, t.phase.snap.identity, t.phase.observed, t.ctx, c.db.clock)
      else None
  }

  function DoCall(cfg: Config, c: Conc, tid: nat, reachable: bool): Conc {
    if tid !in c.threads || !c.threads[tid].phase.Checked? || !Executing(c.threads[tid].request) then c
    else
      var t := c.threads[tid];
      match CallAnswer(cfg, c, t, reachable)
      case None => Finish(c, tid)
      case Some(r) => SetPhase(c, tid, Answered(t.phase.snap, t.phase.observed, r))
  }

  /** The writes are computed from the snapshot read under the lock. */
  function CommitDb(cfg: Config, db: State, t: Thread): State
    requires Locking(t.request)
  {
    var id := t.request.id;
    match t.phase
    case Holding(snap) =>
      if t.request.Approve? && ApproveDecide(snap) == GiveApproval
      then SetLedger(db, id, ApproveWrite(snap, t.request.approver)) else db
    case Stamped(snap, at) =>
      if !t.request.Issue? then db
      else (match IssueDecide(snap)
            case IssueRefused(_) => db
            case IssueNoted(d, _) => SetLedger(db, id, NotePolicy(snap, d))
            case IssueGranted(d) =>
              if t.request.jti == "" || t.request.jti in db.jtis then db
              else SetLedger(db, id, IssueWrite(id, snap, d, t.request.requester,
                                                IssueToken(cfg, id, snap, t.request.ttl, t.request.jti, at)))
                   .(jtis := db.jtis + {t.request.jti}))
    case Answered(snap, _, r) =>
      if Executing(t.request) then SetLedger(db, id, ExecWrite(id, snap, t.request.key, r)) else db
    case _ => db
  }

  predicate ReadyToCommit(t: Thread) {
    || (t.request.Approve? && t.phase.Holding?)
    || (t.request.Issue? && t.phase.Stamped?)
    || (Executing(t.request) && t.phase.Answered?)
  }

  function DoCommit(cfg: Config, c: Conc, tid: nat): Conc {
    if tid !in c.threads || !ReadyToCommit(c.threads[tid]) then c
    else Finish(c.(db := CommitDb(cfg, c.db, c.threads[tid])), tid)
  }

  function DoCrash(c: Conc, tid: nat): Conc {
    if tid !in c.threads || !Locking(c.threads[tid].request) then c else Finish(c, tid)
  }

  /** Actions that cannot happen change nothing, so every sequence of actions is a schedule. */
  ghost function CStep(cfg: Config, c: Conc, a: Action): Conc {
    match a
    case Environment(r) => DoEnvironment(cfg, c, r)
    case Arrive(tid, r) => DoArrive(cfg, c, tid, r)
    case Lock(tid) => DoLock(c, tid)
    case Check(tid) => DoCheck(c, tid)
    case Call(tid, reachable) => DoCall(cfg, c, tid, reachable)
    case Commit(tid) => DoCommit(cfg, c, tid)
    case Crash(tid) => DoCrash(c, tid)
  }

  ghost function CRun(cfg: Config, c: Conc, trace: seq<Action>): Conc
    decreases |trace|
  {
    if trace == [] then c else CRun(cfg, CStep(cfg, c, trace[0]), trace[1..])
  }

  // ---------------------------------------------------------------- the serial order

  /** The execution of this thread will be committed in the rest of the schedule. */
  ghost predicate WillCommit(cfg: Config, c: Conc, rest: seq<Action>, tid: nat)
    decreases |rest|
  {
    && rest != [] && tid in c.threads
    && (|| (rest[0] == Commit(tid) && ReadyToCommit(c.threads[tid]))
        || WillCommit(cfg, CStep(cfg, c, rest[0]), rest[1..], tid))
  }

  /** The serial request a step stands for. An execution stands where its target is read: at its
      check for the in-process executor, which compares with the database's row, at its call for
      the Go executor; and only if it is committed later. The rest stand at their commits. */
  ghost function Emit(cfg: Config, c: Conc, a: Action, rest: seq<Action>): seq<Request> {
    match a
    case Environment(r) => if Unblocked(cfg, c, r) then [r] else []
    case Check(tid) =>
      if && cfg.mode == InProcess && tid in c.threads && Executing(c.threads[tid].request)
        && c.threads[tid].phase.Holding?
         && Decide(c, c.threads[tid]).Proceed? && WillCommit(cfg, CStep(cfg, c, a), rest, tid)
      then [c.threads[tid].request] else []
    case Call(tid, reachable) =>
      if && cfg.mode == GoBoundary && tid in c.threads && Executing(c.threads[tid].request)
        && c.threads[tid].phase.Checked?
         && CallAnswer(cfg, c, c.threads[tid], reachable).Some? && WillCommit(cfg, CStep(cfg, c, a), rest, tid)
      then [c.threads[tid].request] else []
    case Commit(tid) =>
      if tid !in c.threads || !ReadyToCommit(c.threads[tid]) then []
      else
        var t := c.threads[tid];
        (match t.request
         case Approve(_, _) => [t.request]
         case Issue(id, requester, ttl, jti, _) =>
           if t.phase.Stamped? then [Issue(id, requester, ttl, jti, t.phase.at)] else []
         case _ => [])
    case _ => []
  }

  ghost function Serialize(cfg: Config, c: Conc, trace: seq<Action>): seq<Request>
    decreases |trace|
  {
    if trace == [] then []
    else Emit(cfg, c, trace[0], trace[1..]) + Serialize(cfg, CStep(cfg, c, trace[0]), trace[1..])
  }

  // ---------------------------------------------------------------- what holds between steps


  /** The request is as it arrived: an agent's admission can be repeated on the current ledger. */
  ghost predicate ArrivedWell(cfg: Config, db: State, t: Thread)
    requires Locking(t.request)
  {
    && t.request.id in db.ledgers
    && (t.request.Execute? ==> t.request.reachable && t.ctx == None)
    && (t.request.ExecuteAgent? ==>
          && t.request.reachable && t.request.admittedAt <= db.clock && t.ctx.Some?
          && Admit(cfg, t.request.id, db.ledgers[t.request.id], t.request.token, t.request.admittedAt)
            == Admitted(t.ctx.value))
  }

  /** A thread past the lock sees the committed ledger, and its decision to execute still stands. */
  ghost predicate PhaseWell(cfg: Config, db: State, t: Thread)
    requires Locking(t.request)
  {
    && t.request.id in db.ledgers
    && (match t.phase
        case Waiting => true
        case Holding(snap) => snap == db.ledgers[t.request.id]
        case Stamped(snap, at) => snap == db.ledgers[t.request.id] && t.request.Issue? && at <= db.clock
        case Checked(snap, observed) =>
          && snap == db.ledgers[t.request.id] && Executing(t.request)
          && LiveOf(db, snap.identity).Some?
          && ExecDecide(snap, t.ctx, t.request.key, Some(observed)) == Proceed(observed)
        case Answered(snap, observed, r) =>
          && snap == db.ledgers[t.request.id] && Executing(t.request)
          && (cfg.mode == InProcess ==> r == LocalCompare(cfg.sha, snap.identity, observed)))
  }

  ghost predicate ThreadWell(cfg: Config, c: Conc, tid: nat)
    requires tid in c.threads
  {
    var t := c.threads[tid];
    && Locking(t.request)
    && ArrivedWell(cfg, c.db, t)
    && PhaseWell(cfg, c.db, t)
    && (!t.phase.Waiting? ==> t.request.id in c.locks && c.locks[t.request.id] == tid)
  }

  ghost predicate LocksWell(c: Conc) {
    forall id :: id in c.locks ==>
      && c.locks[id] in c.threads && Locking(c.threads[c.locks[id]].request)
      && c.threads[c.locks[id]].request.id == id && !c.threads[c.locks[id]].phase.Waiting?
  }

  ghost predicate CInv(cfg: Config, c: Conc) {
    && LocksWell(c)
    && forall tid :: tid in c.threads ==> ThreadWell(cfg, c, tid)
  }
}
