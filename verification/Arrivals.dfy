/** Interleaved runs from the caller's side: a request that nothing interrupts does exactly what the
    serial step says of it, and whatever answers a request answers the one that arrived. */
module Arrivals {
  import opened Text
  import opened Comparison
  import opened Capability
  import opened Ledgers
  import opened Workflow
  import opened Interleaving
  import opened Overlaps

  // ---------------------------------------------------------------- uninterrupted

  /** A request from arrival to commit, with nothing in between. */
  function Alone(tid: nat, r: Request): seq<Action> {
    match r
    case Approve(_, _) => [Arrive(tid, r), Lock(tid), Commit(tid)]
    case Issue(_, _, _, _, _) => [Arrive(tid, r), Lock(tid), Check(tid), Commit(tid)]
    case Execute(_, _, reachable) => [Arrive(tid, r), Lock(tid), Check(tid), Call(tid, reachable), Commit(tid)]
    case ExecuteAgent(_, _, _, _, reachable) =>
      [Arrive(tid, r), Lock(tid), Check(tid), Call(tid, reachable), Commit(tid)]
    case _ => [Environment(r)]
  }

  /** The request reads the clock at once. */
  predicate Prompt(s: State, r: Request) {
    && (r.Issue? ==> r.stampedAt == s.clock)
    && (r.ExecuteAgent? ==> r.admittedAt == s.clock)
  }

  /** The thread is free and nobody holds the epoch; a request of another kind finds no epoch held. */
  predicate Quiet(c: Conc, tid: nat, r: Request) {
    tid !in c.threads && if Locking(r) then r.id !in c.locks else c.locks == map[]
  }

  /** The system with one thread more, holding its epoch or not. */
  function With(c: Conc, tid: nat, t: Thread): Conc
    requires Locking(t.request)
  {
    c.(threads := c.threads[tid := t],
       locks := if t.phase.Waiting? then c.locks else c.locks[t.request.id := tid])
  }

  lemma LockAlone(cfg: Config, c: Conc, tid: nat, t: Thread)
    requires Locking(t.request) && Quiet(c, tid, t.request) && t.phase.Waiting? && t.request.id in c.db.ledgers
    ensures CStep(cfg, c, Lock(tid)) == c
    ensures CStep(cfg, With(c, tid, t), Lock(tid)) == With(c, tid, t.(phase := Holding(c.db.ledgers[t.request.id])))
  {
  }

  lemma FinishAlone(c: Conc, tid: nat, t: Thread)
    requires Locking(t.request) && Quiet(c, tid, t.request) && !t.phase.Waiting?
    ensures Finish(With(c, tid, t), tid) == c
  {
    assert c.threads[tid := t] - {tid} == c.threads;
    assert c.locks[t.request.id := tid] - {t.request.id} == c.locks;
  }

  lemma PhaseAlone(c: Conc, tid: nat, t: Thread, p: Phase)
    requires Locking(t.request) && !t.phase.Waiting? && !p.Waiting?
    ensures SetPhase(With(c, tid, t), tid, p) == With(c, tid, t.(phase := p))
  {
  }

  lemma GoneStays(cfg: Config, c: Conc, tid: nat, reachable: bool)
    requires tid !in c.threads
    ensures CStep(cfg, c, Lock(tid)) == c && CStep(cfg, c, Check(tid)) == c
    ensures CStep(cfg, c, Call(tid, reachable)) == c && CStep(cfg, c, Commit(tid)) == c
  {
  }

  lemma CRunThree(cfg: Config, c: Conc, x: Action, y: Action, z: Action)
    ensures CRun(cfg, c, [x, y, z]) == CStep(cfg, CStep(cfg, CStep(cfg, c, x), y), z)
  {
    hide CStep;
    assert [x, y, z][1..] == [y, z] && [y, z][1..] == [z] && [z][1..] == [];
    assert CRun(cfg, c, [x, y, z]) == CRun(cfg, CStep(cfg, c, x), [y, z]);
    assert CRun(cfg, CStep(cfg, c, x), [y, z]) == CRun(cfg, CStep(cfg, CStep(cfg, c, x), y), [z]);
  }

  lemma CRunAfter(cfg: Config, c: Conc, x: Action, rest: seq<Action>)
    ensures CRun(cfg, c, [x] + rest) == CRun(cfg, CStep(cfg, c, x), rest)
  {
    hide CStep;
    assert ([x] + rest)[1..] == rest;
  }

  /** Committing for a thread that is ready and alone. */
  lemma CommitAlone(cfg: Config, c: Conc, tid: nat, t: Thread)
    requires Locking(t.request) && Quiet(c, tid, t.request) && !t.phase.Waiting? && ReadyToCommit(t)
    ensures CStep(cfg, With(c, tid, t), Commit(tid)) == c.(db := CommitDb(cfg, c.db, t))
  {
    hide CommitDb;
    var db' := CommitDb(cfg, c.db, t);
    FinishAlone(c.(db := db'), tid, t);
    assert With(c, tid, t).(db := db') == With(c.(db := db'), tid, t);
  }

  lemma ApprovesAlone(cfg: Config, c: Conc, tid: nat, r: Request)
    requires r.Approve? && Quiet(c, tid, r)
    ensures CRun(cfg, c, Alone(tid, r)) == c.(db := Next(cfg, c.db, r))
  {
    CRunThree(cfg, c, Arrive(tid, r), Lock(tid), Commit(tid));
    hide CRun;
    if r.id !in c.db.ledgers {
      GoneStays(cfg, c, tid, true);
    } else {
      var t := Thread(r, None, Waiting);
      assert CStep(cfg, c, Arrive(tid, r)) == With(c, tid, t);
      LockAlone(cfg, c, tid, t);
      var t' := t.(phase := Holding(c.db.ledgers[r.id]));
      CommitAlone(cfg, c, tid, t');
      hide CStep;
      hide ApproveWrite;
      assert c.db.ledgers[r.id := c.db.ledgers[r.id]] == c.db.ledgers;
    }
  }

  lemma StampAlone(cfg: Config, c: Conc, tid: nat, t: Thread)
    requires t.request.Issue? && t.phase.Holding?
    ensures CStep(cfg, With(c, tid, t), Check(tid)) == With(c, tid, t.(phase := Stamped(t.phase.snap, c.db.clock)))
  {
    PhaseAlone(c, tid, t, Stamped(t.phase.snap, c.db.clock));
  }

  lemma IssuesAlone(cfg: Config, c: Conc, tid: nat, r: Request)
    requires r.Issue? && Quiet(c, tid, r) && Prompt(c.db, r)
    ensures CRun(cfg, c, Alone(tid, r)) == c.(db := Next(cfg, c.db, r))
  {
    assert Alone(tid, r) == [Arrive(tid, r)] + [Lock(tid), Check(tid), Commit(tid)];
    CRunAfter(cfg, c, Arrive(tid, r), [Lock(tid), Check(tid), Commit(tid)]);
    CRunThree(cfg, CStep(cfg, c, Arrive(tid, r)), Lock(tid), Check(tid), Commit(tid));
    hide CRun;
    if r.id !in c.db.ledgers {
      GoneStays(cfg, c, tid, true);
    } else {
      var t := Thread(r, None, Waiting);
      assert CStep(cfg, c, Arrive(tid, r)) == With(c, tid, t);
      LockAlone(cfg, c, tid, t);
      var held := t.(phase := Holding(c.db.ledgers[r.id]));
      StampAlone(cfg, c, tid, held);
      var stamped := t.(phase := Stamped(c.db.ledgers[r.id], c.db.clock));
      CommitAlone(cfg, c, tid, stamped);
      hide CStep;
      IssueCommits(cfg, c.db, stamped, r);
    }
  }

  lemma IssueCommits(cfg: Config, db: State, t: Thread, r: Request)
    requires r.Issue? && t.request == r && r.id in db.ledgers && r.stampedAt == db.clock
    requires t.phase == Stamped(db.ledgers[r.id], db.clock)
    ensures CommitDb(cfg, db, t) == Next(cfg, db, r)
  {
    hide IssueDecide;
    hide IssueWrite;
    hide NotePolicy;
    hide Sign;
  }

  // ---------------------------------------------------------------- executions

  /** The thread of an execution that has just arrived. */
  predicate Fresh(cfg: Config, db: State, r: Request, t: Thread)
    requires Executing(r)
  {
    && t.phase.Waiting? && r.id in db.ledgers
    && ((r.Execute? && t.request == Execute(r.id, r.key, true) && t.ctx == None)
        || (r.ExecuteAgent? && t.request == ExecuteAgent(r.id, r.key, r.token, db.clock, true)
            && t.ctx.Some? && Admit(cfg, r.id, db.ledgers[r.id], r.token, db.clock) == Admitted(t.ctx.value)))
  }

  lemma ArriveAlone(cfg: Config, c: Conc, tid: nat, r: Request) returns (t: Option<Thread>)
    requires Executing(r) && Quiet(c, tid, r) && Prompt(c.db, r)
    ensures match t
            case None => CStep(cfg, c, Arrive(tid, r)) == c && Next(cfg, c.db, r) == c.db
            case Some(t) => Fresh(cfg, c.db, r, t) && CStep(cfg, c, Arrive(tid, r)) == With(c, tid, t)
  {
    hide Admit;
    hide StepExecuteEpoch;
    if r.id !in c.db.ledgers {
      return None;
    }
    if r.Execute? {
      return Some(Thread(Execute(r.id, r.key, true), None, Waiting));
    }
    var a := Admit(cfg, r.id, c.db.ledgers[r.id], r.token, c.db.clock);
    if a.Admitted? {
      return Some(Thread(ExecuteAgent(r.id, r.key, r.token, c.db.clock, true), Some(a.context), Waiting));
    }
    return None;
  }

  lemma FreshSerially(cfg: Config, db: State, r: Request, t: Thread)
    requires Executing(r) && Prompt(db, r) && Fresh(cfg, db, r, t)
    ensures Next(cfg, db, r) == StepExecuteEpoch(cfg, db, r.id, t.ctx, r.key, r.reachable).0
    ensures Locking(t.request) && Executing(t.request) && t.request.id == r.id && t.request.key == r.key
  {
    hide Admit;
    hide StepExecuteEpoch;
  }

  lemma CheckAlone(cfg: Config, c: Conc, tid: nat, t: Thread)
    requires Executing(t.request) && t.phase.Holding? && Quiet(c, tid, t.request)
    ensures var d := ExecDecide(t.phase.snap, t.ctx, t.request.key, LiveOf(c.db, t.phase.snap.identity));
            CStep(cfg, With(c, tid, t), Check(tid))
            == if d.Proceed? then With(c, tid, t.(phase := Checked(t.phase.snap, d.observed))) else c
  {
    hide ExecDecide;
    FinishAlone(c, tid, t);
    var d := ExecDecide(t.phase.snap, t.ctx, t.request.key, LiveOf(c.db, t.phase.snap.identity));
    if d.Proceed? {
      PhaseAlone(c, tid, t, Checked(t.phase.snap, d.observed));
    }
  }

  lemma CallAlone(cfg: Config, c: Conc, tid: nat, t: Thread, reachable: bool)
    requires Executing(t.request) && t.phase.Checked? && Quiet(c, tid, t.request)
    ensures var answer := CallAnswer(cfg, c, t, reachable);
            CStep(cfg, With(c, tid, t), Call(tid, reachable))
            == if answer.Some? then With(c, tid, t.(phase := Answered(t.phase.snap, t.phase.observed, answer.value)))
              else c
  {
    hide CallExecutor;
    FinishAlone(c, tid, t);
    var answer := CallAnswer(cfg, c, t, reachable);
    if answer.Some? {
      PhaseAlone(c, tid, t, Answered(t.phase.snap, t.phase.observed, answer.value));
    }
  }

  /** From the lock on, an execution alone does what `execute_epoch` does. */
  lemma LockedAlone(cfg: Config, c: Conc, tid: nat, t: Thread, reachable: bool)
    requires Executing(t.request) && t.request.id in c.db.ledgers && Quiet(c, tid, t.request)
    requires t.phase == Holding(c.db.ledgers[t.request.id])
    ensures CRun(cfg, With(c, tid, t), [Check(tid), Call(tid, reachable), Commit(tid)])
            == c.(db := StepExecuteEpoch(cfg, c.db, t.request.id, t.ctx, t.request.key, reachable).0)
  {
    hide CStep;
    hide With;
    hide ExecDecide;
    hide CallAnswer;
    CRunThree(cfg, With(c, tid, t), Check(tid), Call(tid, reachable), Commit(tid));
    hide CRun;
    var l := c.db.ledgers[t.request.id];
    var d := ExecDecide(l, t.ctx, t.request.key, LiveOf(c.db, l.identity));
    CheckAlone(cfg, c, tid, t);
    GoneStays(cfg, c, tid, reachable);
    if !d.Proceed? {
      RefusedSerially(cfg, c.db, t, d, reachable);
    } else {
      var checked := t.(phase := Checked(l, d.observed));
      CallAlone(cfg, c, tid, checked, reachable);
      AnsweredSerially(cfg, c, t, d, checked, reachable);
      var answer := CallAnswer(cfg, c, checked, reachable);
      if answer.Some? {
        CommitAlone(cfg, c, tid, t.(phase := Answered(l, d.observed, answer.value)));
      }
    }
  }

  lemma RefusedSerially(cfg: Config, db: State, t: Thread, d: ExecDecision, reachable: bool)
    requires Executing(t.request) && t.request.id in db.ledgers && !d.Proceed?
    requires var l := db.ledgers[t.request.id]; d == ExecDecide(l, t.ctx, t.request.key, LiveOf(db, l.identity))
    ensures StepExecuteEpoch(cfg, db, t.request.id, t.ctx, t.request.key, reachable).0 == db
  {
    hide ExecDecide;
  }

  lemma AnsweredSerially(cfg: Config, c: Conc, t: Thread, d: ExecDecision, checked: Thread, reachable: bool)
    requires Executing(t.request) && t.request.id in c.db.ledgers && d.Proceed?
    requires var l := c.db.ledgers[t.request.id];
             && d == ExecDecide(l, t.ctx, t.request.key, LiveOf(c.db, l.identity))
             && checked == t.(phase := Checked(l, d.observed))
    ensures StepExecuteEpoch(cfg, c.db, t.request.id, t.ctx, t.request.key, reachable).0
            == match CallAnswer(cfg, c, checked, reachable)
               case None => c.db
               case Some(r) => CommitDb(cfg, c.db, t.(phase := Answered(checked.phase.snap, d.observed, r)))
  {
    hide ExecDecide;
    hide CallExecutor;
    hide ExecWrite;
  }

  lemma ExecutesAlone(cfg: Config, c: Conc, tid: nat, r: Request)
    requires Executing(r) && Quiet(c, tid, r) && Prompt(c.db, r)
    ensures CRun(cfg, c, Alone(tid, r)) == c.(db := Next(cfg, c.db, r))
  {
    hide Next;
    hide StepExecuteEpoch;
    hide Fresh;
    var after := [Check(tid), Call(tid, r.reachable), Commit(tid)];
    assert Alone(tid, r) == [Arrive(tid, r)] + ([Lock(tid)] + after);
    CRunAfter(cfg, c, Arrive(tid, r), [Lock(tid)] + after);
    CRunAfter(cfg, CStep(cfg, c, Arrive(tid, r)), Lock(tid), after);
    var t := ArriveAlone(cfg, c, tid, r);
    GoneStays(cfg, c, tid, r.reachable);
    if t.None? {
      CRunThree(cfg, c, Check(tid), Call(tid, r.reachable), Commit(tid));
      hide CStep;
      hide CRun;
      assert c.(db := c.db) == c;
    } else {
      hide CStep;
      hide CRun;
      FreshSerially(cfg, c.db, r, t.value);
      FreshWaits(cfg, c.db, r, t.value);
      LockAlone(cfg, c, tid, t.value);
      LockedAlone(cfg, c, tid, t.value.(phase := Holding(c.db.ledgers[r.id])), r.reachable);
    }
  }

  lemma FreshWaits(cfg: Config, db: State, r: Request, t: Thread)
    requires Executing(r) && Fresh(cfg, db, r, t)
    ensures t.phase.Waiting? && r.id in db.ledgers
  {
    hide Admit;
  }

  /** A request that meets a quiet system and is not interrupted leaves it quiet, with exactly the
      database of its serial step: its own epoch, key, approver, token, not another's. */
  lemma UninterruptedIsSerial(cfg: Config, c: Conc, tid: nat, r: Request)
    requires Quiet(c, tid, r) && Prompt(c.db, r)
    ensures CRun(cfg, c, Alone(tid, r)) == c.(db := Next(cfg, c.db, r))
  {
    hide Next;
    hide CStep;
    match r
    case Approve(_, _) => ApprovesAlone(cfg, c, tid, r);
    case Issue(_, _, _, _, _) => IssuesAlone(cfg, c, tid, r);
    case Execute(_, _, _) => ExecutesAlone(cfg, c, tid, r);
    case ExecuteAgent(_, _, _, _, _) => ExecutesAlone(cfg, c, tid, r);
    case _ =>
      EnvironmentAlone(cfg, c, r);
      assert [Environment(r)][1..] == [];
      assert CRun(cfg, c, [Environment(r)]) == CRun(cfg, CStep(cfg, c, Environment(r)), []);
  }

  lemma EnvironmentAlone(cfg: Config, c: Conc, r: Request)
    requires !Locking(r) && c.locks == map[]
    ensures CStep(cfg, c, Environment(r)) == c.(db := Next(cfg, c.db, r))
  {
    hide Next;
  }

  // ---------------------------------------------------------------- whatever others do

  /** An arrival waits beside any other requests; the system is otherwise as it was. */
  lemma ArrivesAnyway(cfg: Config, c: Conc, tid: nat, r: Request)
    requires tid !in c.threads && Locking(r) && r.id in c.db.ledgers
    requires r.ExecuteAgent? ==> Admit(cfg, r.id, c.db.ledgers[r.id], r.token, c.db.clock).Admitted?
    ensures var c' := CStep(cfg, c, Arrive(tid, r));
            && tid in c'.threads && c'.threads[tid].phase == Waiting && CallOf(r, c'.threads[tid].request)
            && c' == c.(threads := c.threads[tid := c'.threads[tid]])
  {
    hide Admit;
  }

  /** A waiting request takes the lock of its epoch exactly when nobody holds it, and then has the
      committed ledger. */
  lemma LocksExactly(cfg: Config, c: Conc, tid: nat)
    requires tid in c.threads && c.threads[tid].phase.Waiting? && Locking(c.threads[tid].request)
    requires c.threads[tid].request.id in c.db.ledgers
    ensures var id := c.threads[tid].request.id;
            CStep(cfg, c, Lock(tid))
            == if id in c.locks then c
               else c.(locks := c.locks[id := tid],
                       threads := c.threads[tid := c.threads[tid].(phase := Holding(c.db.ledgers[id]))])
  {
  }

  /** A crash at any point rolls the request back: it is gone, its lock is free, and the database
      and everybody else are as they were. */
  lemma CrashRollsBack(cfg: Config, c: Conc, tid: nat)
    requires tid in c.threads && Locking(c.threads[tid].request)
    ensures var c', id := CStep(cfg, c, Crash(tid)), c.threads[tid].request.id;
            && c'.db == c.db && c'.threads == c.threads - {tid}
            && c'.locks == if id in c.locks && c.locks[id] == tid then c.locks - {id} else c.locks
  {
  }

  /** A request of another kind waits only for an epoch that is held and that it would change. */
  lemma OthersWaitExactly(cfg: Config, c: Conc, r: Request)
    requires !Locking(r)
    ensures CStep(cfg, c, Environment(r))
            == if forall id :: id in c.locks && id in c.db.ledgers ==>
                    id in Next(cfg, c.db, r).ledgers && Next(cfg, c.db, r).ledgers[id] == c.db.ledgers[id]
               then c.(db := Next(cfg, c.db, r)) else c
  {
    hide Next;
  }

  // ---------------------------------------------------------------- every serial run

  /** Every request of the run reads the clock at once. */
  ghost predicate PromptRun(cfg: Config, rs: seq<Request>) {
    forall i :: 0 <= i < |rs| ==> Prompt(Run(cfg, START, rs[..i]), rs[i])
  }

  /** The requests one after the other, all on one thread. */
  function OneByOne(rs: seq<Request>): seq<Action> {
    if rs == [] then [] else OneByOne(rs[..|rs| - 1]) + Alone(0, rs[|rs| - 1])
  }

  /** The converse of serializability: every such serial run is the database of a schedule. */
  lemma {:induction false} EverySerialRunIsScheduled(cfg: Config, rs: seq<Request>)
    requires PromptRun(cfg, rs)
    ensures CRun(cfg, IDLE, OneByOne(rs)) == IDLE.(db := Run(cfg, START, rs))
  {
    hide Next;
    hide CStep;
    if rs != [] {
      var init, r := rs[..|rs| - 1], rs[|rs| - 1];
      assert Prompt(Run(cfg, START, rs[..|rs| - 1]), rs[|rs| - 1]);
      forall i | 0 <= i < |init|
        ensures Prompt(Run(cfg, START, init[..i]), init[i])
      {
        assert init[..i] == rs[..i] && init[i] == rs[i];
      }
      hide Prompt;
      EverySerialRunIsScheduled(cfg, init);
      CRunConcat(cfg, IDLE, OneByOne(init), Alone(0, r));
      UninterruptedIsSerial(cfg, IDLE.(db := Run(cfg, START, init)), 0, r);
    }
  }

  // ---------------------------------------------------------------- who is answered

  /** What a thread runs is the request that arrived: the same operation on the same epoch, under
      the same key, with the same token. Only the instants it reads are its own. */
  predicate CallOf(arrived: Request, r: Request) {
    match r
    case Execute(id, key, _) => arrived.Execute? && arrived.id == id && arrived.key == key
    case ExecuteAgent(id, key, token, _, _) =>
      arrived.ExecuteAgent? && arrived.id == id && arrived.key == key && arrived.token == token
    case _ => arrived == r
  }

  /** The thread at step `n` arrived with step `m` and has been there since. */
  ghost predicate ArrivedAt(cfg: Config, trace: seq<Action>, m: nat, n: nat, tid: nat) {
    && m < n <= |trace| && trace[m].Arrive? && trace[m].tid == tid
    && tid !in CRun(cfg, IDLE, trace[..m]).threads
    && forall k :: m < k <= n ==> tid in CRun(cfg, IDLE, trace[..k]).threads
  }

  lemma StepThread(cfg: Config, c: Conc, a: Action, tid: nat)
    requires tid in CStep(cfg, c, a).threads
    ensures if tid in c.threads then CStep(cfg, c, a).threads[tid].request == c.threads[tid].request
            else a.Arrive? && a.tid == tid && CallOf(a.request, CStep(cfg, c, a).threads[tid].request)
  {
    hide Next;
    hide Admit;
    hide Decide;
    hide CallAnswer;
    hide CommitDb;
  }

  lemma CRunSnoc(cfg: Config, trace: seq<Action>, n: nat)
    requires 0 < n <= |trace|
    ensures CRun(cfg, IDLE, trace[..n]) == CStep(cfg, CRun(cfg, IDLE, trace[..n - 1]), trace[n - 1])
  {
    hide CStep;
    assert trace[..n] == trace[..n - 1] + [trace[n - 1]];
    CRunConcat(cfg, IDLE, trace[..n - 1], [trace[n - 1]]);
    assert [trace[n - 1]][1..] == [];
    var c := CRun(cfg, IDLE, trace[..n - 1]);
    assert CRun(cfg, c, [trace[n - 1]]) == CRun(cfg, CStep(cfg, c, trace[n - 1]), []);
  }

  /** Every thread of every schedule runs a request that arrived. */
  lemma {:induction false} ThreadArrived(cfg: Config, trace: seq<Action>, n: nat, tid: nat) returns (m: nat)
    requires n <= |trace| && tid in CRun(cfg, IDLE, trace[..n]).threads
    ensures ArrivedAt(cfg, trace, m, n, tid)
    ensures CallOf(trace[m].request, CRun(cfg, IDLE, trace[..n]).threads[tid].request)
    decreases n
  {
    hide CStep;
    hide CallOf;
    assert n > 0;
    CRunSnoc(cfg, trace, n);
    var c := CRun(cfg, IDLE, trace[..n - 1]);
    StepThread(cfg, c, trace[n - 1], tid);
    hide CRun;
    if tid in c.threads {
      m := ThreadArrived(cfg, trace, n - 1, tid);
    } else {
      m := n - 1;
    }
  }

  /** Whatever answers an execution answers one that arrived for that epoch under that key. */
  lemma AnswersArrival(cfg: Config, trace: seq<Action>, n: nat, id: string, key: string, r: Receipt) returns (m: nat)
    requires AnsweredAt(cfg, trace, n, id, key, r)
    ensures (trace[n].Check? || trace[n].Commit?) && ArrivedAt(cfg, trace, m, n, trace[n].tid)
    ensures Executing(trace[m].request) && trace[m].request.id == id && trace[m].request.key == key && r.key == key
  {
    hide CRun;
    hide Decide;
    m := ThreadArrived(cfg, trace, n, trace[n].tid);
    hide ArrivedAt;
    AnswerStays(cfg, trace, n, id, key, r);
  }
}
