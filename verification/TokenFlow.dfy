/** Where the tokens presented in an interleaved run come from: if each one that opens was handed
    out by an earlier commit of the schedule, the serial run presents only issued tokens too, and
    every receipt of the schedule rests on a grant unexpired where its execution stands. */
module TokenFlow {
  import opened Capability
  import opened Ledgers
  import opened Workflow
  import opened Moves
  import opened History
  import opened Tokens
  import opened Interleaving
  import opened LockInvariant
  import opened Serializability
  import opened Overlaps

  /** The commit of a granted capability, whose identifier is fresh. */
  predicate Grants(c: Conc, a: Action) {
    && a.Commit? && a.tid in c.threads
    && var t := c.threads[a.tid];
    && t.request.Issue? && t.phase.Stamped? && IssueDecide(t.phase.snap).IssueGranted?
    && t.request.jti != "" && t.request.jti !in c.db.jtis
  }

  lemma GrantedHasChange(l: Ledger)
    ensures IssueDecide(l).IssueGranted? ==> l.change.Some?
  {
  }

  /** The tokens handed out with this step. */
  function HandedOut(cfg: Config, c: Conc, a: Action): set<string> {
    if Grants(c, a) then
      var t := c.threads[a.tid];
      GrantedHasChange(t.phase.snap);
      {IssueToken(cfg, t.request.id, t.phase.snap, t.request.ttl, t.request.jti, t.phase.at).token}
    else {}
  }

  /** The step presents this token, and it opens under the secret. */
  predicate Presents(cfg: Config, a: Action) {
    a.Arrive? && a.request.ExecuteAgent? && Open(cfg.jws, a.request.token).Some?
  }

  /** From here on, every token presented that opens is one of these or was handed out before. */
  ghost predicate OnlyHandedOut(cfg: Config, c: Conc, trace: seq<Action>, tokens: set<string>)
    decreases |trace|
  {
    trace == []
    || (&& (Presents(cfg, trace[0]) ==> trace[0].request.token in tokens)
        && OnlyHandedOut(cfg, CStep(cfg, c, trace[0]), trace[1..], tokens + HandedOut(cfg, c, trace[0])))
  }

  // ---------------------------------------------------------------- the serial run issued them

  /** Responses of the serial run so far account for these tokens. */
  ghost predicate AllIssued(cfg: Config, rs: seq<Request>, tokens: set<string>) {
    forall token :: token in tokens ==> exists j: nat :: IssuedAt(cfg, rs, j, token)
  }

  /** The agents under way present only these tokens. */
  ghost predicate ThreadsPresent(cfg: Config, c: Conc, tokens: set<string>) {
    forall tid :: tid in c.threads && c.threads[tid].request.ExecuteAgent?
                  && Open(cfg.jws, c.threads[tid].request.token).Some? ==>
      c.threads[tid].request.token in tokens
  }

  lemma IssuedEarlier(cfg: Config, rs: seq<Request>, more: seq<Request>, j: nat, token: string)
    requires IssuedAt(cfg, rs, j, token)
    ensures IssuedAt(cfg, rs + more, j, token)
  {
    hide Run;
    hide Step;
    assert (rs + more)[..j] == rs[..j];
  }

  lemma AllIssuedEarlier(cfg: Config, rs: seq<Request>, more: seq<Request>, tokens: set<string>)
    requires AllIssued(cfg, rs, tokens)
    ensures AllIssued(cfg, rs + more, tokens)
  {
    hide IssuedAt;
    forall token | token in tokens
      ensures exists j: nat :: IssuedAt(cfg, rs + more, j, token)
    {
      var j: nat :| IssuedAt(cfg, rs, j, token);
      IssuedEarlier(cfg, rs, more, j, token);
    }
  }

  /** One more request keeps to issued tokens if its own token is issued. */
  lemma OnlyIssuedSnoc(cfg: Config, rs: seq<Request>, r: Request, tokens: set<string>)
    requires OnlyIssuedTokens(cfg, rs) && AllIssued(cfg, rs, tokens)
    requires r.ExecuteAgent? && Open(cfg.jws, r.token).Some? ==> r.token in tokens
    ensures OnlyIssuedTokens(cfg, rs + [r])
  {
    hide Open;
    var all := rs + [r];
    forall i | 0 <= i < |all| && all[i].ExecuteAgent? && Open(cfg.jws, all[i].token).Some?
      ensures exists j: nat :: j < i && IssuedAt(cfg, all, j, all[i].token)
    {
      if i < |rs| {
        assert all[i] == rs[i];
        var j: nat :| j < i && IssuedAt(cfg, rs, j, rs[i].token);
        IssuedEarlier(cfg, rs, [r], j, rs[i].token);
      } else {
        var j: nat :| IssuedAt(cfg, rs, j, r.token);
        IssuedEarlier(cfg, rs, [r], j, r.token);
      }
    }
  }

  /** A granted capability's commit is answered in the serial run with the same token. */
  lemma SerialHandsOut(cfg: Config, s: State, id: string, l: Ledger, requester: string, ttl: int, jti: string, at: int)
    requires id in s.ledgers && s.ledgers[id] == l && IssueDecide(l).IssueGranted? && at <= s.clock
    requires l.change.Some? && jti != "" && jti !in s.jtis
    ensures var response := Step(cfg, s, Issue(id, requester, ttl, jti, at)).1;
            response.CapabilityIs? && response.token == IssueToken(cfg, id, l, ttl, jti, at).token
  {
    hide IssueDecide;
    hide IssueWrite;
    hide Sign;
    IssuePolicy(l);
  }

  lemma HandedOutIsIssued(cfg: Config, c: Conc, trace: seq<Action>, rs: seq<Request>, token: string)
    requires trace != [] && CInv(cfg, c) && Matches(cfg, c, trace, Run(cfg, START, rs))
    requires token in HandedOut(cfg, c, trace[0])
    ensures IssuedAt(cfg, rs + Emit(cfg, c, trace[0], trace[1..]), |rs|, token)
  {
    hide Run;
    hide Step;
    hide IssueDecide;
    hide IssueToken;
    hide WillCommit;
    var t, s := c.threads[trace[0].tid], Run(cfg, START, rs);
    var r := t.request;
    assert ThreadWell(cfg, c, trace[0].tid);
    hide ArrivedWell;
    GrantedHasChange(t.phase.snap);
    SerialEpoch(cfg, c, trace, trace[0].tid, s);
    SerialHandsOut(cfg, s, r.id, t.phase.snap, r.requester, r.ttl, r.jti, t.phase.at);
    var issue := Issue(r.id, r.requester, r.ttl, r.jti, t.phase.at);
    assert Emit(cfg, c, trace[0], trace[1..]) == [issue];
    assert (rs + [issue])[..|rs|] == rs;
  }

  /** A step stands for at most one request, and for an agent's execution only if a thread of the
      schedule made it. */
  lemma EmitAtMostOne(cfg: Config, c: Conc, a: Action, rest: seq<Action>)
    ensures |Emit(cfg, c, a, rest)| <= 1
    ensures forall r :: r in Emit(cfg, c, a, rest) && r.ExecuteAgent? ==>
              exists tid :: tid in c.threads && c.threads[tid].request == r
  {
    hide WillCommit;
    hide CStep;
    hide CallAnswer;
    hide Decide;
    hide Next;
  }

  lemma StepPresents(cfg: Config, c: Conc, a: Action, tokens: set<string>)
    requires ThreadsPresent(cfg, c, tokens) && (Presents(cfg, a) ==> a.request.token in tokens)
    ensures ThreadsPresent(cfg, CStep(cfg, c, a), tokens)
  {
    hide Open;
    hide Admit;
    hide Next;
    hide CallAnswer;
    hide Decide;
    hide CommitDb;
  }

  lemma MoreTokens(cfg: Config, c: Conc, tokens: set<string>, more: set<string>)
    requires ThreadsPresent(cfg, c, tokens)
    ensures ThreadsPresent(cfg, c, tokens + more)
  {
    hide Open;
  }

  lemma StepOnlyIssued(cfg: Config, c: Conc, trace: seq<Action>, rs: seq<Request>, tokens: set<string>)
    requires trace != [] && CInv(cfg, c) && Matches(cfg, c, trace, Run(cfg, START, rs))
    requires OnlyIssuedTokens(cfg, rs) && AllIssued(cfg, rs, tokens) && ThreadsPresent(cfg, c, tokens)
    ensures var rs' := rs + Emit(cfg, c, trace[0], trace[1..]);
            OnlyIssuedTokens(cfg, rs') && AllIssued(cfg, rs', tokens + HandedOut(cfg, c, trace[0]))
  {
    hide CInv;
    hide Matches;
    hide Run;
    hide CStep;
    hide IssuedAt;
    hide HandedOut;
    hide Open;
    var now := Emit(cfg, c, trace[0], trace[1..]);
    EmitAtMostOne(cfg, c, trace[0], trace[1..]);
    hide Emit;
    hide AllIssued;
    hide OnlyIssuedTokens;
    AllIssuedEarlier(cfg, rs, now, tokens);
    if now == [] {
      assert rs + now == rs;
    } else {
      assert now == [now[0]] && now[0] in now;
      OnlyIssuedSnoc(cfg, rs, now[0], tokens);
    }
    AddIssued(cfg, c, trace, rs, tokens);
  }

  lemma AddIssued(cfg: Config, c: Conc, trace: seq<Action>, rs: seq<Request>, tokens: set<string>)
    requires trace != [] && CInv(cfg, c) && Matches(cfg, c, trace, Run(cfg, START, rs))
    requires AllIssued(cfg, rs + Emit(cfg, c, trace[0], trace[1..]), tokens)
    ensures AllIssued(cfg, rs + Emit(cfg, c, trace[0], trace[1..]), tokens + HandedOut(cfg, c, trace[0]))
  {
    hide CInv;
    hide Matches;
    hide Run;
    hide CStep;
    hide IssuedAt;
    hide HandedOut;
    hide Emit;
    forall token | token in HandedOut(cfg, c, trace[0])
      ensures exists j: nat :: IssuedAt(cfg, rs + Emit(cfg, c, trace[0], trace[1..]), j, token)
    {
      HandedOutIsIssued(cfg, c, trace, rs, token);
    }
  }

  lemma {:induction false} SerialOnlyIssued(cfg: Config, c: Conc, trace: seq<Action>, rs: seq<Request>,
                                           tokens: set<string>)
    requires CInv(cfg, c) && Matches(cfg, c, trace, Run(cfg, START, rs)) && OnlyHandedOut(cfg, c, trace, tokens)
    requires OnlyIssuedTokens(cfg, rs) && AllIssued(cfg, rs, tokens) && ThreadsPresent(cfg, c, tokens)
    ensures OnlyIssuedTokens(cfg, rs + Serialize(cfg, c, trace))
    decreases |trace|
  {
    hide CInv;
    hide Matches;
    hide Run;
    hide CStep;
    hide Emit;
    hide HandedOut;
    hide OnlyIssuedTokens;
    hide AllIssued;
    hide ThreadsPresent;
    hide Presents;
    if trace == [] {
      assert rs + [] == rs;
    } else {
      var now := Emit(cfg, c, trace[0], trace[1..]);
      var c', more := CStep(cfg, c, trace[0]), HandedOut(cfg, c, trace[0]);
      StepOnlyIssued(cfg, c, trace, rs, tokens);
      StepPresents(cfg, c, trace[0], tokens);
      MoreTokens(cfg, c', tokens, more);
      StepMatches(cfg, c, trace, Run(cfg, START, rs));
      RunConcat(cfg, START, rs, now);
      CInvStep(cfg, c, trace[0]);
      SerialOnlyIssued(cfg, c', trace[1..], rs + now, tokens + more);
      assert rs + (now + Serialize(cfg, c', trace[1..])) == (rs + now) + Serialize(cfg, c', trace[1..]);
    }
  }

  /** In every schedule whose agents present only tokens handed out before, every receipt was
      written, where its execution stands, under an approval of the epoch's own fingerprint or for
      an allowed change under an unrevoked grant of exactly its scope, unexpired then. */
  lemma EveryScheduleAuthorisedNow(cfg: Config, trace: seq<Action>, id: string, k: nat)
    requires Lawful(cfg.jws) && OnlyHandedOut(cfg, IDLE, trace, {}) && HasReceipt(cfg, trace, id, k)
    ensures var rs := Serialize(cfg, IDLE, trace);
            exists i: nat :: Wrote(cfg, rs, i, id, k)
              && AuthorisedNow(cfg, Run(cfg, START, rs[..i]), rs[i], id, Run(cfg, START, rs[..i]).ledgers[id])
  {
    hide CRun;
    hide Serialize;
    hide Wrote;
    hide AuthorisedNow;
    hide Lawful;
    hide OnlyHandedOut;
    RunNothing(cfg, START);
    assert CInv(cfg, IDLE) && Matches(cfg, IDLE, trace, START);
    hide Run;
    SerialOnlyIssued(cfg, IDLE, trace, [], {});
    assert [] + Serialize(cfg, IDLE, trace) == Serialize(cfg, IDLE, trace);
    EveryScheduleIsSerial(cfg, trace);
    EveryReceiptAuthorisedNow(cfg, Serialize(cfg, IDLE, trace), id, k);
  }
}
