/** What requests that overlap leave behind and answer: the theorems about serial runs, carried
    over to every schedule, and the receipts that executions are answered with. */
module Overlaps {
  import opened Text
  import opened Identities
  import opened Comparison
  import opened Capability
  import opened Ledgers
  import opened Workflow
  import opened Interleaving
  import opened Invariants
  import opened History
  import opened LockInvariant
  import opened Serializability
  import Boundary
  import Targets

  // ---------------------------------------------------------------- receipts of any schedule

  /** The epoch has a receipt number `k` after the schedule. */
  ghost predicate HasReceipt(cfg: Config, trace: seq<Action>, id: string, k: nat) {
    var db := CRun(cfg, IDLE, trace).db;
    id in db.ledgers && k < |db.ledgers[id].receipts|
  }

  /** Every receipt of every schedule was authorised where its execution stands in the serial order. */
  lemma EveryScheduleAuthorised(cfg: Config, trace: seq<Action>, id: string, k: nat)
    requires HasReceipt(cfg, trace, id, k)
    ensures var rs := Serialize(cfg, IDLE, trace);
            exists i: nat :: Wrote(cfg, rs, i, id, k)
              && Authorised(cfg, Run(cfg, START, rs[..i]), rs[i], id, Run(cfg, START, rs[..i]).ledgers[id])
  {
    hide Run;
    hide CRun;
    hide Serialize;
    hide Wrote;
    hide Authorised;
    EveryScheduleIsSerial(cfg, trace);
    EveryReceiptAuthorised(cfg, Serialize(cfg, IDLE, trace), id, k);
  }

  /** With either executor, under an approval or for a change that the policy allows alone. */
  lemma EveryScheduleApprovedOrAlone(cfg: Config, trace: seq<Action>, id: string, k: nat)
    requires HasReceipt(cfg, trace, id, k)
    ensures var rs := Serialize(cfg, IDLE, trace);
            exists i: nat :: Wrote(cfg, rs, i, id, k)
              && var l := Run(cfg, START, rs[..i]).ledgers[id];
                 || l.approval.Some?
                 || (&& AllowedAlone(l) && (NonProductionDeploy(l) <==> l.change.value.action == "deploy")
                     && (cfg.mode == GoBoundary ==> l.change.value.action == "deploy"))
  {
    hide Run;
    hide CRun;
    hide Serialize;
    hide Wrote;
    hide AllowedAlone;
    hide NonProductionDeploy;
    EveryScheduleIsSerial(cfg, trace);
    EveryReceiptApprovedOrAlone(cfg, Serialize(cfg, IDLE, trace), id, k);
  }

  /** Through the Go executor, under an approval or for a deployment from DRAFT outside production. */
  lemma EveryScheduleUnapproved(cfg: Config, trace: seq<Action>, id: string, k: nat)
    requires cfg.mode == GoBoundary && HasReceipt(cfg, trace, id, k)
    ensures var rs := Serialize(cfg, IDLE, trace);
            exists i: nat :: Wrote(cfg, rs, i, id, k)
              && var l := Run(cfg, START, rs[..i]).ledgers[id]; l.approval.Some? || NonProductionDeploy(l)
  {
    hide Run;
    hide CRun;
    hide Serialize;
    hide Wrote;
    hide NonProductionDeploy;
    EveryScheduleIsSerial(cfg, trace);
    EveryUnapprovedReceipt(cfg, Serialize(cfg, IDLE, trace), id, k);
  }

  /** And it reports the exact comparison with the last observation delivered before it stands. */
  lemma EveryScheduleChecked(cfg: Config, trace: seq<Action>, id: string, k: nat)
    requires cfg.mode == GoBoundary && HasReceipt(cfg, trace, id, k)
    ensures var rs, l := Serialize(cfg, IDLE, trace), CRun(cfg, IDLE, trace).db.ledgers[id];
            exists i: nat :: Wrote(cfg, rs, i, id, k)
              && var last := Boundary.LastOf(Targets.Delivered(cfg, rs[..i]), l.identity);
                 last.Some? && CheckedAgainst(cfg, l, l.receipts[k], last.value)
  {
    hide Run;
    hide CRun;
    hide Serialize;
    hide Wrote;
    hide CheckedAgainst;
    hide Targets.Delivered;
    hide Boundary.LastOf;
    EveryScheduleIsSerial(cfg, trace);
    Targets.EveryReceiptAgainstLastDelivered(cfg, Serialize(cfg, IDLE, trace), id, k);
  }

  /** In process, the exact comparison with the database's row where the execution stands. */
  lemma EveryScheduleCheckedLocally(cfg: Config, trace: seq<Action>, id: string, k: nat)
    requires cfg.mode == InProcess && HasReceipt(cfg, trace, id, k)
    ensures var rs, l := Serialize(cfg, IDLE, trace), CRun(cfg, IDLE, trace).db.ledgers[id];
            exists i: nat :: Wrote(cfg, rs, i, id, k)
              && var row := LiveOf(Run(cfg, START, rs[..i]), l.identity);
                 row.Some? && CheckedLocally(cfg, l, l.receipts[k], row.value)
  {
    hide Run;
    hide CRun;
    hide Serialize;
    hide Wrote;
    hide CheckedLocally;
    hide LiveOf;
    EveryScheduleIsSerial(cfg, trace);
    var i, row := LocalReceipt(cfg, Serialize(cfg, IDLE, trace), id, k);
  }

  /** That row is the last one committed for exactly the release's project and environment. */
  lemma EveryScheduleAgainstLastCommitted(cfg: Config, trace: seq<Action>, id: string, k: nat)
    requires cfg.mode == InProcess && HasReceipt(cfg, trace, id, k)
    ensures var rs, l := Serialize(cfg, IDLE, trace), CRun(cfg, IDLE, trace).db.ledgers[id];
            exists i: nat :: Wrote(cfg, rs, i, id, k)
              && var last := Targets.LastCommitted(cfg, rs[..i], l.identity);
                 last.Some? && CheckedLocally(cfg, l, l.receipts[k], last.value)
  {
    hide Run;
    hide CRun;
    hide Serialize;
    hide Wrote;
    hide CheckedLocally;
    hide Targets.LastCommitted;
    EveryScheduleIsSerial(cfg, trace);
    Targets.EveryReceiptAgainstLastCommitted(cfg, Serialize(cfg, IDLE, trace), id, k);
  }

  // ---------------------------------------------------------------- what executions are answered

  /** With this action an execution of the epoch under this key is answered with this receipt:
      found under the lock, or committed. */
  ghost predicate AnswersWith(c: Conc, a: Action, id: string, key: string, r: Receipt) {
    match a
    case Check(tid) =>
      && tid in c.threads && c.threads[tid].phase.Holding? && Executing(c.threads[tid].request)
      && c.threads[tid].request.id == id && c.threads[tid].request.key == key
      && Decide(c, c.threads[tid]) == Replayed(r)
    case Commit(tid) =>
      && tid in c.threads && c.threads[tid].phase.Answered? && Executing(c.threads[tid].request)
      && c.threads[tid].request.id == id && c.threads[tid].request.key == key
      && r == Receipt(key, c.threads[tid].phase.snap.fingerprint, c.threads[tid].phase.result)
    case _ => false
  }

  /** The epoch has committed this receipt under this key. */
  ghost predicate Holds(db: State, id: string, key: string, r: Receipt) {
    id in db.ledgers && r in db.ledgers[id].receipts && r.key == key
  }

  lemma FoundHolds(l: Ledger, ctx: Option<Context>, key: string, live: Option<Identity>, r: Receipt)
    requires ExecDecide(l, ctx, key, live) == Replayed(r)
    ensures r in l.receipts && r.key == key
  {
    FindReceiptFinds(l.receipts, key);
  }

  /** An execution is answered only with a receipt that is committed by then. */
  lemma AnswerIsCommitted(cfg: Config, c: Conc, a: Action, id: string, key: string, r: Receipt)
    requires CInv(cfg, c) && AnswersWith(c, a, id, key, r)
    ensures Holds(CStep(cfg, c, a).db, id, key, r)
  {
    hide ExecDecide;
    hide ArrivedWell;
    hide LocalCompare;
    var t := c.threads[a.tid];
    assert ThreadWell(cfg, c, a.tid);
    if a.Check? {
      FoundHolds(t.phase.snap, t.ctx, key, LiveOf(c.db, t.phase.snap.identity), r);
    }
  }

  /** A request whose key is used when it holds the lock is answered with that receipt and changes
      nothing. */
  lemma UsedKeyAnswered(cfg: Config, c: Conc, tid: nat, r: Receipt)
    requires CInv(cfg, c) && tid in c.threads && c.threads[tid].phase.Holding? && Executing(c.threads[tid].request)
    requires var t := c.threads[tid];
             t.request.id in c.db.ledgers && FindReceipt(c.db.ledgers[t.request.id].receipts, t.request.key) == Some(r)
    ensures AnswersWith(c, Check(tid), c.threads[tid].request.id, c.threads[tid].request.key, r)
    ensures CStep(cfg, c, Check(tid)).db == c.db
  {
    hide ArrivedWell;
    hide FindReceipt;
    assert ThreadWell(cfg, c, tid);
  }

  /** The database only moves forward. */
  lemma StepLater(cfg: Config, c: Conc, a: Action)
    requires CInv(cfg, c)
    ensures Later(c.db, CStep(cfg, c, a).db)
  {
    hide Next;
    hide Extends;
    hide Admit;
    hide Decide;
    hide CallAnswer;
    hide CommitDb;
    hide Later;
    hide ArrivedWell;
    hide PhaseWell;
    SameDbLater(c.db);
    match a
    case Environment(r) =>
      if Unblocked(cfg, c, r) {
        NextLater(cfg, c.db, r);
      }
    case Commit(tid) =>
      if tid in c.threads && ReadyToCommit(c.threads[tid]) {
        assert ThreadWell(cfg, c, tid);
        CommitLater(cfg, c.db, c.threads[tid]);
      }
    case _ =>
  }

  lemma LaterHolds(db: State, db': State, id: string, key: string, r: Receipt)
    requires Later(db, db') && Holds(db, id, key, r)
    ensures Holds(db', id, key, r)
  {
  }

  lemma {:induction false} RunHolds(cfg: Config, c: Conc, trace: seq<Action>, id: string, key: string, r: Receipt)
    requires CInv(cfg, c) && Holds(c.db, id, key, r)
    ensures Holds(CRun(cfg, c, trace).db, id, key, r)
    decreases |trace|
  {
    hide CInv;
    hide CStep;
    hide Later;
    hide Holds;
    if trace != [] {
      StepLater(cfg, c, trace[0]);
      LaterHolds(c.db, CStep(cfg, c, trace[0]).db, id, key, r);
      CInvStep(cfg, c, trace[0]);
      RunHolds(cfg, CStep(cfg, c, trace[0]), trace[1..], id, key, r);
    }
  }

  lemma {:induction false} CInvRun(cfg: Config, c: Conc, trace: seq<Action>)
    requires CInv(cfg, c)
    ensures CInv(cfg, CRun(cfg, c, trace))
    decreases |trace|
  {
    hide CInv;
    hide CStep;
    if trace != [] {
      CInvStep(cfg, c, trace[0]);
      CInvRun(cfg, CStep(cfg, c, trace[0]), trace[1..]);
    }
  }

  lemma {:induction false} CRunConcat(cfg: Config, c: Conc, a: seq<Action>, b: seq<Action>)
    ensures CRun(cfg, c, a + b) == CRun(cfg, CRun(cfg, c, a), b)
    decreases |a|
  {
    hide CStep;
    if a == [] {
      assert a + b == b;
    } else {
      assert (a + b)[0] == a[0] && (a + b)[1..] == a[1..] + b;
      CRunConcat(cfg, CStep(cfg, c, a[0]), a[1..], b);
    }
  }

  /** Step `n` of the schedule answers an execution. */
  ghost predicate AnsweredAt(cfg: Config, trace: seq<Action>, n: nat, id: string, key: string, r: Receipt) {
    n < |trace| && AnswersWith(CRun(cfg, IDLE, trace[..n]), trace[n], id, key, r)
  }

  /** Whatever an execution is answered with is in the final database. */
  lemma AnswerStays(cfg: Config, trace: seq<Action>, n: nat, id: string, key: string, r: Receipt)
    requires AnsweredAt(cfg, trace, n, id, key, r)
    ensures Holds(CRun(cfg, IDLE, trace).db, id, key, r)
  {
    hide CStep;
    hide AnswersWith;
    hide Holds;
    assert CInv(cfg, IDLE);
    hide CInv;
    var c, a := CRun(cfg, IDLE, trace[..n]), trace[n];
    CInvRun(cfg, IDLE, trace[..n]);
    AnswerIsCommitted(cfg, c, a, id, key, r);
    CInvStep(cfg, c, a);
    assert trace[n..][0] == a && trace[n..][1..] == trace[n + 1..] && trace[..n] + trace[n..] == trace;
    CRunConcat(cfg, IDLE, trace[..n], trace[n..]);
    assert CRun(cfg, c, trace[n..]) == CRun(cfg, CStep(cfg, c, a), trace[n + 1..]);
    RunHolds(cfg, CStep(cfg, c, a), trace[n + 1..], id, key, r);
  }

  lemma OneReceiptPerKey(db: State, id: string, key: string, r: Receipt, r': Receipt)
    requires id in db.ledgers && KeysUnique(db.ledgers[id]) && Holds(db, id, key, r) && Holds(db, id, key, r')
    ensures r == r'
  {
    var l := db.ledgers[id];
    var i :| 0 <= i < |l.receipts| && l.receipts[i] == r;
    var j :| 0 <= j < |l.receipts| && l.receipts[j] == r';
  }

  /** In every schedule all executions of an epoch under one key that are answered with a receipt
      are answered with the same one, whichever request wrote it and however they overlapped. */
  lemma AnswersAgree(cfg: Config, trace: seq<Action>, m: nat, n: nat, id: string, key: string, r: Receipt, r': Receipt)
    requires AnsweredAt(cfg, trace, m, id, key, r) && AnsweredAt(cfg, trace, n, id, key, r')
    ensures r == r'
  {
    hide CRun;
    hide AnswersWith;
    hide LedgerInv;
    AnswerStays(cfg, trace, m, id, key, r);
    AnswerStays(cfg, trace, n, id, key, r');
    EveryScheduleKeepsInv(cfg, trace);
    KeysOf(cfg, id, CRun(cfg, IDLE, trace).db.ledgers[id]);
    OneReceiptPerKey(CRun(cfg, IDLE, trace).db, id, key, r, r');
  }

  lemma KeysOf(cfg: Config, id: string, l: Ledger)
    requires LedgerInv(cfg, id, l)
    ensures KeysUnique(l)
  {
    hide KeysUnique;
  }
}
