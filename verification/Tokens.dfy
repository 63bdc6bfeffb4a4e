/** The grants behind receipts. A token that opens was issued by the service, as long as nobody else
    has the secret; then the grant an agent's execution rests on is unexpired when the receipt is
    written, and not only when the request was admitted. */
module Tokens {
  import opened Capability
  import opened Ledgers
  import opened Workflow
  import opened Moves
  import opened Invariants
  import opened History
  import opened Delegation
  import Policy

  /** Request `j` of the run answered with this token. */
  ghost predicate IssuedAt(cfg: Config, rs: seq<Request>, j: nat, token: string) {
    && j < |rs|
    && var response := Step(cfg, Run(cfg, START, rs[..j]), rs[j]).1;
    response.CapabilityIs? && response.token == token
  }

  /** Every token an agent presents that opens under the secret came from an earlier response. */
  ghost predicate OnlyIssuedTokens(cfg: Config, rs: seq<Request>) {
    forall i :: 0 <= i < |rs| && rs[i].ExecuteAgent? && Open(cfg.jws, rs[i].token).Some? ==>
      exists j: nat :: j < i && IssuedAt(cfg, rs, j, rs[i].token)
  }

  /** The token names this grant and carries its expiry in whole seconds. */
  ghost predicate NamesGrant(cfg: Config, token: string, g: Grant) {
    && Open(cfg.jws, token).Some?
    && Open(cfg.jws, token).value.jti == g.jti && Open(cfg.jws, token).value.exp == WholeSeconds(g.expiresAt)
  }

  lemma IssuedNamesGrant(cfg: Config, id: string, l: Ledger, ttl: int, jti: string, at: int, g: Grant)
    requires Lawful(cfg.jws) && l.change.Some?
    requires var i := IssueToken(cfg, id, l, ttl, jti, at); g.jti == i.jti && g.expiresAt == i.expiresAt
    ensures NamesGrant(cfg, IssueToken(cfg, id, l, ttl, jti, at).token, g)
  {
    OpenSigned(cfg.jws, Claims(1, jti, TYP, ScopeOf(id, l), WholeSeconds(at), WholeSeconds(g.expiresAt)));
    hide Lawful;
    hide Sign;
    hide Open;
  }

  /** A response with a capability leaves the grant it names with the epoch it was issued for. */
  lemma ResponseLeavesGrant(cfg: Config, s: State, r: Request)
    requires Lawful(cfg.jws) && Step(cfg, s, r).1.CapabilityIs?
    ensures r.Issue? && r.id in Next(cfg, s, r).ledgers
    ensures var g := Step(cfg, s, r).1.grant;
            g in Next(cfg, s, r).ledgers[r.id].grants && NamesGrant(cfg, Step(cfg, s, r).1.token, g)
  {
    hide Lawful;
    hide NamesGrant;
    IssueResponds(cfg, s, r);
    IssueLeavesGrant(cfg, s, r.id, r.requester, r.ttl, r.jti, r.stampedAt);
  }

  lemma IssueResponds(cfg: Config, s: State, r: Request)
    requires Step(cfg, s, r).1.CapabilityIs?
    ensures r.Issue?
  {
    hide StepIssue;
    hide ExecDecide;
    hide Admit;
    hide Answer;
  }

  lemma IssueLeavesGrant(cfg: Config, s: State, id: string, requester: string, ttl: int, jti: string, at: int)
    requires Lawful(cfg.jws) && StepIssue(cfg, s, id, requester, ttl, jti, at).1.CapabilityIs?
    ensures var (s', response) := StepIssue(cfg, s, id, requester, ttl, jti, at);
            && id in s'.ledgers && response.grant in s'.ledgers[id].grants
            && NamesGrant(cfg, response.token, response.grant)
  {
    hide Lawful;
    hide NamesGrant;
    hide IssueDecide;
    hide IssueToken;
    var l := s.ledgers[id];
    IssuePolicy(l);
    var i := IssueToken(cfg, id, l, ttl, jti, at);
    var g := Grant(i.jti, ScopeOf(id, l), requester, i.expiresAt, false);
    GrantWritten(id, l, IssueDecide(l).policy, requester, i);
    IssuedNamesGrant(cfg, id, l, ttl, jti, at, g);
  }

  lemma GrantWritten(id: string, l: Ledger, d: Policy.PolicyDecision, requester: string, i: Issued)
    requires l.change.Some?
    ensures IssueWrite(id, l, d, requester, i).grants
            == l.grants + [Grant(i.jti, ScopeOf(id, l), requester, i.expiresAt, false)]
  {
  }

  /** The grant of an issued token is still with its epoch later in the run. */
  lemma GrantStays(cfg: Config, rs: seq<Request>, j: nat, i: nat, token: string) returns (id: string, g: Grant)
    requires Lawful(cfg.jws) && j < i <= |rs| && IssuedAt(cfg, rs, j, token)
    ensures id in Run(cfg, START, rs[..i]).ledgers && g in Run(cfg, START, rs[..i]).ledgers[id].grants
    ensures NamesGrant(cfg, token, g)
  {
    hide Step;
    hide Lawful;
    hide NamesGrant;
    var s := Run(cfg, START, rs[..j]);
    ResponseLeavesGrant(cfg, s, rs[j]);
    id, g := rs[j].id, Step(cfg, s, rs[j]).1.grant;
    assert rs[..j + 1][..j] == rs[..j];
    assert rs[..j + 1] + rs[j + 1..i] == rs[..i];
    RunConcat(cfg, START, rs[..j + 1], rs[j + 1..i]);
    hide Run;
    RunExtends(cfg, Run(cfg, START, rs[..j + 1]), rs[j + 1..i], id);
  }

  /** One identifier, one grant. */
  lemma SameGrant(s: State, a: string, g: Grant, b: string, h: Grant)
    requires GrantIds(s) && a in s.ledgers && b in s.ledgers
    requires g in s.ledgers[a].grants && h in s.ledgers[b].grants && g.jti == h.jti
    ensures g == h
  {
    var i :| 0 <= i < |s.ledgers[a].grants| && s.ledgers[a].grants[i] == g;
    var j :| 0 <= j < |s.ledgers[b].grants| && s.ledgers[b].grants[j] == h;
    assert HoldsGrant(s, a, i, g.jti) && HoldsGrant(s, b, j, g.jti);
  }

  /** Either the epoch's own fingerprint was approved, or the policy allowed the agent's change and
      its token named a grant of exactly that scope, unrevoked and not yet expired now. */
  ghost predicate AuthorisedNow(cfg: Config, s: State, r: Request, id: string, l: Ledger) {
    || ApprovedAsIs(l)
    || (&& r.ExecuteAgent? && r.id == id
        && l.change.Some? && l.change.value.actorType == Policy.AGENT
        && PolicyFor(l).decision == Policy.Allow
        && exists g :: UsableGrant(cfg, id, l, g, r.token, r.admittedAt, s.clock) && s.clock < g.expiresAt)
  }

  lemma UsableUnexpired(cfg: Config, s: State, id: string, g: Grant, token: string, at: int, other: string, h: Grant)
    requires GrantIds(s) && id in s.ledgers && UsableGrant(cfg, id, s.ledgers[id], g, token, at, s.clock)
    requires other in s.ledgers && h in s.ledgers[other].grants && NamesGrant(cfg, token, h)
    ensures s.clock < g.expiresAt
  {
    hide Open;
    hide GrantIds;
    SameGrant(s, id, g, other, h);
  }

  /** In every run in which agents present only issued tokens, every receipt was written under an
      approval of the epoch's own fingerprint, or for an allowed change under an unrevoked grant of
      exactly its scope that had not expired at that moment. */
  lemma EveryReceiptAuthorisedNow(cfg: Config, rs: seq<Request>, id: string, k: nat)
    requires Lawful(cfg.jws) && OnlyIssuedTokens(cfg, rs)
    requires id in Run(cfg, START, rs).ledgers && k < |Run(cfg, START, rs).ledgers[id].receipts|
    ensures exists i: nat :: Wrote(cfg, rs, i, id, k)
              && AuthorisedNow(cfg, Run(cfg, START, rs[..i]), rs[i], id, Run(cfg, START, rs[..i]).ledgers[id])
  {
    hide Wrote;
    hide Run;
    hide LedgerInv;
    hide Called;
    hide Lawful;
    hide IssuedAt;
    hide UsableGrant;
    hide GrantIds;
    hide NamesGrant;
    var i, s, call := FindWriter(cfg, rs, id, k);
    var l := s.ledgers[id];
    CalledIsAuthorised(cfg, s, rs[i], id, l, call);
    if !ApprovedAsIs(l) {
      var g :| UsableGrant(cfg, id, l, g, rs[i].token, rs[i].admittedAt, s.clock);
      UsableOpens(cfg, id, l, g, rs[i].token, rs[i].admittedAt, s.clock);
      var j: nat :| j < i && IssuedAt(cfg, rs, j, rs[i].token);
      var other, h := GrantStays(cfg, rs, j, i, rs[i].token);
      RunKeepsGrantIds(cfg, rs[..i]);
      UsableUnexpired(cfg, s, id, g, rs[i].token, rs[i].admittedAt, other, h);
    }
    assert AuthorisedNow(cfg, s, rs[i], id, l);
  }

  lemma UsableOpens(cfg: Config, id: string, l: Ledger, g: Grant, token: string, at: int, now: int)
    requires UsableGrant(cfg, id, l, g, token, at, now)
    ensures Open(cfg.jws, token).Some?
  {
  }
}
