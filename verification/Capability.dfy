/** Scoped capabilities: issued and verified by the orchestrator (orchestrator/app/capability.py)
    and verified again by the executor (executor/internal/boundary/boundary.go). A token is a JWS
    in compact form (RFC 7515, section 7.1) signed with HS256 (RFC 7518, section 3.2). Base64url,
    JSON of the header and claims, and the MAC are parameters. Times are microseconds. */
module Capability {
  import opened Text
  import opened Identities
  import Policy

  datatype Scope = Scope(
    epochId: string,
    actorType: string,
    actorId: string,
    project: string,
    environment: string,
    action: string,
    fingerprint: string)

  /** `iat` and `exp` are whole seconds (RFC 7519, section 4.1.4). */
  datatype Claims = Claims(ver: int, jti: string, typ: string, scope: Scope, iat: int, exp: int)

  const TYP: string := "epochdeploy-capability"
  const SECOND: int := 1000000

  function WholeSeconds(t: int): int { t / SECOND }

  /** The library functions under a token, and the shared secret already applied to the MAC. */
  datatype Jws = Jws(
    b64: string -> string,
    unb64: string -> Option<string>,
    mac: string -> string,
    header: string,
    readAlg: string -> Option<string>,
    writeClaims: Claims -> string,
    readClaims: string -> Option<Claims>)

  /** What the libraries promise: decoding undoes encoding, and base64url has no dot. */
  ghost predicate Lawful(j: Jws) {
    && (forall x :: j.unb64(j.b64(x)) == Some(x))
    && (forall x :: NoDot(j.b64(x)))
    && (forall c :: j.readClaims(j.writeClaims(c)) == Some(c))
    && j.readAlg(j.header) == Some("HS256")
  }

  predicate NoDot(s: string) { '.' !in s }

  /** `strings.Split(token, ".")`. */
  function SplitDots(s: string): (parts: seq<string>)
    ensures parts != []
  {
    if s == "" then [""]
    else
      var rest := SplitDots(s[1..]);
      if s[0] == '.' then [""] + rest else [[s[0]] + rest[0]] + rest[1..]
  }

  lemma {:induction false} SplitOff(a: string, rest: string)
    requires NoDot(a)
    ensures SplitDots(a + "." + rest) == [a] + SplitDots(rest)
  {
    var s := a + "." + rest;
    if a == "" {
      assert s[1..] == rest;
    } else {
      assert s[1..] == a[1..] + "." + rest;
      assert a[0] in a && NoDot(a[1..]);
      SplitOff(a[1..], rest);
      assert [a[0]] + a[1..] == a;
    }
  }

  lemma {:induction false} SplitNone(a: string)
    requires NoDot(a)
    ensures SplitDots(a) == [a]
  {
    if a != "" {
      assert a[0] in a && NoDot(a[1..]);
      SplitNone(a[1..]);
      assert [a[0]] + a[1..] == a;
    }
  }

  function Sign(j: Jws, c: Claims): string {
    var input := j.b64(j.header) + "." + j.b64(j.writeClaims(c));
    input + "." + j.b64(j.mac(input))
  }

  /** Three segments, the one supported algorithm, a MAC over the first two, readable claims. */
  function Open(j: Jws, token: string): Option<Claims> {
    var parts := SplitDots(token);
    if |parts| != 3 then None
    else match (j.unb64(parts[0]), j.unb64(parts[2]), j.unb64(parts[1]))
      case (Some(header), Some(signature), Some(payload)) =>
        if j.readAlg(header) != Some("HS256") || signature != j.mac(parts[0] + "." + parts[1]) then None
        else j.readClaims(payload)
      case _ => None
  }

  lemma OpenSigned(j: Jws, c: Claims)
    requires Lawful(j)
    ensures Open(j, Sign(j, c)) == Some(c)
  {
    var h, p := j.b64(j.header), j.b64(j.writeClaims(c));
    var s := j.b64(j.mac(h + "." + p));
    assert NoDot(h) && NoDot(p) && NoDot(s);
    assert Sign(j, c) == h + "." + (p + "." + s);
    SplitOff(h, p + "." + s);
    SplitOff(p, s);
    SplitNone(s);
  }

  /** The first part ends at the first dot, and the parts after it are those of the rest. */
  ghost predicate SplitsAtDot(s: string, parts: seq<string>) {
    && |parts| > 0 && NoDot(parts[0])
    && (|parts| == 1 ==> s == parts[0])
    && (|parts| > 1 ==>
          var n := |parts[0]|;
          n < |s| && s[..n] == parts[0] && s[n] == '.' && SplitDots(s[n + 1..]) == parts[1..])
  }

  lemma StartsWithDot(s: string)
    requires s != "" && s[0] == '.'
    ensures SplitsAtDot(s, SplitDots(s))
  {
    assert s[..0] == "";
    assert SplitDots(s)[1..] == SplitDots(s[1..]);
  }

  lemma StartsWithout(s: string)
    requires s != "" && s[0] != '.' && SplitsAtDot(s[1..], SplitDots(s[1..]))
    ensures SplitsAtDot(s, SplitDots(s))
  {
    var rest := SplitDots(s[1..]);
    var parts := [[s[0]] + rest[0]] + rest[1..];
    assert SplitDots(s) == parts;
    hide SplitDots;
    assert s == [s[0]] + s[1..];
    if |rest| > 1 {
      var n := |rest[0]|;
      assert s[..n + 1] == [s[0]] + s[1..][..n];
      assert s[1..][n + 1..] == s[n + 2..];
      assert parts[1..] == rest[1..];
    }
  }

  lemma {:induction false} SplitParts(s: string)
    ensures SplitsAtDot(s, SplitDots(s))
  {
    hide SplitsAtDot;
    if s == "" {
      SplitNone("");
      EmptySplits();
    } else {
      SplitParts(s[1..]);
      if s[0] == '.' {
        StartsWithDot(s);
      } else {
        StartsWithout(s);
      }
    }
  }

  lemma EmptySplits()
    ensures SplitsAtDot("", SplitDots(""))
  {
  }

  /** The three segments of a token in compact form. */
  ghost predicate Compact(token: string, header: string, payload: string, signature: string) {
    && NoDot(header) && NoDot(payload) && NoDot(signature)
    && token == header + "." + payload + "." + signature
  }

  lemma CompactSplits(token: string, header: string, payload: string, signature: string)
    requires Compact(token, header, payload, signature)
    ensures SplitDots(token) == [header, payload, signature]
  {
    assert token == header + "." + (payload + "." + signature);
    SplitOff(header, payload + "." + signature);
    SplitOff(payload, signature);
    SplitNone(signature);
    hide SplitDots;
  }

  lemma SplitsCompact(token: string, header: string, payload: string, signature: string)
    requires SplitDots(token) == [header, payload, signature]
    ensures Compact(token, header, payload, signature)
  {
    hide SplitDots;
    SplitParts(token);
    var rest := token[|header| + 1..];
    assert SplitDots(rest) == [payload, signature];
    assert token == header + "." + rest;
    SplitParts(rest);
    var last := rest[|payload| + 1..];
    assert SplitDots(last) == [signature];
    assert rest == payload + "." + last;
    SplitParts(last);
    assert token == header + "." + (payload + "." + signature);
  }

  /** A token opens to claims exactly if it is three base64url segments with dots between them, the
      first naming HS256, the last the MAC of the first two with their dot, the second the claims. */
  lemma OpensExactly(j: Jws, token: string, c: Claims)
    ensures Open(j, token) == Some(c) <==>
            exists header, payload, signature ::
              && Compact(token, header, payload, signature)
              && (exists text :: j.unb64(header) == Some(text) && j.readAlg(text) == Some("HS256"))
              && j.unb64(signature) == Some(j.mac(header + "." + payload))
              && (exists text :: j.unb64(payload) == Some(text) && j.readClaims(text) == Some(c))
  {
    var parts := SplitDots(token);
    if |parts| == 3 {
      assert parts == [parts[0], parts[1], parts[2]];
      SplitsCompact(token, parts[0], parts[1], parts[2]);
    }
    forall header, payload, signature | Compact(token, header, payload, signature)
      ensures parts == [header, payload, signature]
    {
      CompactSplits(token, header, payload, signature);
    }
    hide SplitDots;
    hide Compact;
  }

  // ---------------------------------------------------------------- issue

  datatype Issued = Issued(token: string, jti: string, expiresAt: int)

  /** capability.py `issue_capability`, given the clock and the fresh identifier. */
  function IssueCapability(j: Jws, scope: Scope, ttlSeconds: int, now: int, jti: string): Issued {
    var expires := now + ttlSeconds * SECOND;
    Issued(Sign(j, Claims(1, jti, TYP, scope, WholeSeconds(now), WholeSeconds(expires))), jti, expires)
  }

  // ---------------------------------------------------------------- verify, in both runtimes

  datatype Verdict = Accepted(claims: Claims) | Rejected(why: Reason)
  datatype Reason = BadToken | Unsupported | Expired | NotYetIssued | Mismatch(name: string)

  datatype Claimed = Claimed(name: string, got: string, want: string)

  function ScopeChecks(got: Scope, want: Scope): seq<Claimed> {
    [Claimed("epoch_id", got.epochId, want.epochId),
     Claimed("actor_type", got.actorType, want.actorType),
     Claimed("actor_id", got.actorId, want.actorId),
     Claimed("project", got.project, want.project),
     Claimed("environment", got.environment, want.environment),
     Claimed("action", got.action, want.action),
     Claimed("fingerprint", got.fingerprint, want.fingerprint)]
  }

  function FirstMismatch(checks: seq<Claimed>): Option<string> {
    if checks == [] then None
    else if checks[0].got != checks[0].want then Some(checks[0].name)
    else FirstMismatch(checks[1..])
  }

  /** capability.py `verify_capability`: `jwt.decode` refuses an `exp` not after the clock and an
      `iat` after it, then the claims are compared. */
  function PyVerify(j: Jws, token: string, expected: Scope, now: int): Verdict {
    match Open(j, token)
    case None => Rejected(BadToken)
    case Some(c) =>
      if now < c.iat * SECOND then Rejected(NotYetIssued)
      else if c.exp * SECOND <= now then Rejected(Expired)
      else match FirstMismatch([Claimed("typ", c.typ, TYP)] + ScopeChecks(c.scope, expected))
        case Some(name) => Rejected(Mismatch(name))
        case None => if c.ver != 1 || c.jti == "" then Rejected(Unsupported) else Accepted(c)
  }

  /** boundary.go `VerifyCapability`. */
  function GoVerify(j: Jws, token: string, expected: Scope, now: int): Verdict {
    match Open(j, token)
    case None => Rejected(BadToken)
    case Some(c) =>
      if c.ver != 1 || c.typ != TYP || c.jti == "" then Rejected(Unsupported)
      else if c.exp <= WholeSeconds(now) then Rejected(Expired)
      else match FirstMismatch(ScopeChecks(c.scope, expected))
        case Some(name) => Rejected(Mismatch(name))
        case None => Accepted(c)
  }

  /** The executor's verification with its checking loop. */
  method VerifyCapability(j: Jws, token: string, expected: Scope, now: int) returns (r: Verdict)
    ensures r == GoVerify(j, token, expected, now)
  {
    var parsed := Open(j, token);
    if parsed.None? {
      return Rejected(BadToken);
    }
    var claims := parsed.value;
    if claims.ver != 1 || claims.typ != TYP || claims.jti == "" {
      return Rejected(Unsupported);
    }
    if claims.exp <= WholeSeconds(now) {
      return Rejected(Expired);
    }
    var checks := ScopeChecks(claims.scope, expected);
    for i := 0 to |checks|
      invariant FirstMismatch(checks) == FirstMismatch(checks[i..])
    {
      if checks[i].got != checks[i].want {
        return Rejected(Mismatch(checks[i].name));
      }
      assert checks[i..][1..] == checks[i + 1..];
    }
    return Accepted(claims);
  }

  lemma {:induction false} NoMismatch(checks: seq<Claimed>)
    ensures FirstMismatch(checks) == None <==> forall i :: 0 <= i < |checks| ==> checks[i].got == checks[i].want
  {
    if checks != [] {
      NoMismatch(checks[1..]);
      assert forall i :: 1 <= i < |checks| ==> checks[i] == checks[1..][i - 1];
    }
  }

  lemma ScopeMatches(got: Scope, want: Scope)
    ensures FirstMismatch(ScopeChecks(got, want)) == None <==> got == want
  {
    var checks := ScopeChecks(got, want);
    NoMismatch(checks);
    if FirstMismatch(checks) == None {
      assert checks[0].got == checks[0].want && checks[1].got == checks[1].want && checks[2].got == checks[2].want
          && checks[3].got == checks[3].want && checks[4].got == checks[4].want && checks[5].got == checks[5].want
          && checks[6].got == checks[6].want;
    }
  }

  lemma TypedMismatch(c: Claims, want: Scope)
    ensures FirstMismatch([Claimed("typ", c.typ, TYP)] + ScopeChecks(c.scope, want)) == None
            <==> c.typ == TYP && c.scope == want
  {
    var checks := [Claimed("typ", c.typ, TYP)] + ScopeChecks(c.scope, want);
    assert checks[1..] == ScopeChecks(c.scope, want);
    ScopeMatches(c.scope, want);
  }

  /** Comparing whole seconds with `<=` and comparing the exact clock expire a token at the same
      instant. */
  lemma ExpiryRulesAgree(exp: int, now: int)
    ensures exp <= WholeSeconds(now) <==> exp * SECOND <= now
  {
    assert now == WholeSeconds(now) * SECOND + now % SECOND;
  }

  /** What acceptance says about the claims, in each runtime. */
  lemma AcceptedExactly(j: Jws, token: string, expected: Scope, now: int, c: Claims)
    ensures GoVerify(j, token, expected, now) == Accepted(c) <==>
            && Open(j, token) == Some(c) && c.ver == 1 && c.typ == TYP && c.jti != ""
            && c.scope == expected && now < c.exp * SECOND
    ensures PyVerify(j, token, expected, now) == Accepted(c) <==>
            && Open(j, token) == Some(c) && c.ver == 1 && c.typ == TYP && c.jti != ""
            && c.scope == expected && c.iat * SECOND <= now < c.exp * SECOND
  {
    if Open(j, token).Some? {
      var d := Open(j, token).value;
      ScopeMatches(d.scope, expected);
      TypedMismatch(d, expected);
      ExpiryRulesAgree(d.exp, now);
    }
  }

  /** Whatever the orchestrator accepts the executor accepts, with the same claims, and the
      converse fails only for a token whose issue time is still ahead. */
  lemma VerifiersAgree(j: Jws, token: string, expected: Scope, now: int, c: Claims)
    ensures PyVerify(j, token, expected, now) == Accepted(c)
            <==> GoVerify(j, token, expected, now) == Accepted(c) && c.iat * SECOND <= now
  {
    AcceptedExactly(j, token, expected, now, c);
  }

  /** A capability as issued is accepted by both runtimes for its own scope exactly until its
      whole-second expiry, which is never after the recorded one; for any other scope never. */
  lemma IssuedAcceptedExactly(j: Jws, scope: Scope, ttl: int, issuedAt: int, jti: string, want: Scope, now: int)
    requires Lawful(j) && jti != "" && issuedAt <= now
    ensures var i := IssueCapability(j, scope, ttl, issuedAt, jti);
            && (PyVerify(j, i.token, want, now).Accepted?
                <==> want == scope && now < WholeSeconds(i.expiresAt) * SECOND)
            && (GoVerify(j, i.token, want, now).Accepted?
                <==> want == scope && now < WholeSeconds(i.expiresAt) * SECOND)
            && WholeSeconds(i.expiresAt) * SECOND <= i.expiresAt
  {
    var i := IssueCapability(j, scope, ttl, issuedAt, jti);
    var c := Claims(1, jti, TYP, scope, WholeSeconds(issuedAt), WholeSeconds(i.expiresAt));
    OpenSigned(j, c);
    AcceptedExactly(j, i.token, want, now, c);
    var py, go := PyVerify(j, i.token, want, now), GoVerify(j, i.token, want, now);
    if py.Accepted? {
      AcceptedExactly(j, i.token, want, now, py.claims);
    }
    if go.Accepted? {
      AcceptedExactly(j, i.token, want, now, go.claims);
    }
    assert issuedAt == WholeSeconds(issuedAt) * SECOND + issuedAt % SECOND;
    assert i.expiresAt == WholeSeconds(i.expiresAt) * SECOND + i.expiresAt % SECOND;
  }

  // ---------------------------------------------------------------- the executor's gate

  /** What the orchestrator sends along with an agent's execution. */
  datatype Context = Context(
    epochId: string,
    actorType: string,
    actorId: string,
    action: string,
    approvedFingerprint: string,
    token: string,
    policyDecision: Policy.Decision,
    policyRule: string)

  /** boundary.go `ValidateAgentExecutionCapability`: true when it returns no error. */
  predicate ValidateAgent(j: Jws, sha: Hash, expected: Identity, ctx: Context, now: int) {
    || ctx.actorType != Policy.AGENT
    || (&& ctx.action == "deploy" && ctx.token != ""
        && ctx.approvedFingerprint == Fingerprint(Go, sha, expected)
        && GoVerify(j, ctx.token,
                    Scope(ctx.epochId, Policy.AGENT, ctx.actorId, expected.project, expected.environment, "deploy",
                          Fingerprint(Go, sha, expected)),
                    now).Accepted?)
  }

  /** The scope the orchestrator builds for an epoch and its change. */
  function EpochScope(sha: Hash, epochId: string, v: Identity, actorId: string, action: string): Scope {
    Scope(epochId, Policy.AGENT, actorId, v.project, v.environment, action, Fingerprint(Python, sha, v))
  }

  /** The context the orchestrator sends for that epoch and change. */
  function EpochContext(sha: Hash, epochId: string, v: Identity, actorId: string, action: string, token: string,
                        d: Policy.PolicyDecision): Context {
    Context(epochId, Policy.AGENT, actorId, action, Fingerprint(Python, sha, v), token, d.decision, d.ruleId)
  }

  lemma SignedNotEmpty(j: Jws, c: Claims)
    ensures Sign(j, c) != ""
  {
    var input := j.b64(j.header) + "." + j.b64(j.writeClaims(c));
    assert Sign(j, c)[|input|] == '.';
  }

  /** The executor lets an issued capability through exactly when the change is a `deploy`, the
      identity is in the common alphabet and the token has not expired. */
  lemma IssuedPassesGateExactly(j: Jws, sha: Hash, epochId: string, v: Identity, actorId: string, action: string,
                                d: Policy.PolicyDecision, ttl: int, issuedAt: int, jti: string, now: int)
    requires Lawful(j) && jti != "" && issuedAt <= now
    requires NoCollision(sha, CanonicalText(Python, v), CanonicalText(Go, v))
    ensures var i := IssueCapability(j, EpochScope(sha, epochId, v, actorId, action), ttl, issuedAt, jti);
            ValidateAgent(j, sha, v, EpochContext(sha, epochId, v, actorId, action, i.token, d), now)
            <==> action == "deploy" && CommonAlphabet(v) && now < WholeSeconds(i.expiresAt) * SECOND
  {
    var scope := EpochScope(sha, epochId, v, actorId, action);
    var i := IssueCapability(j, scope, ttl, issuedAt, jti);
    var want := Scope(epochId, Policy.AGENT, actorId, v.project, v.environment, "deploy", Fingerprint(Go, sha, v));
    IssuedAcceptedExactly(j, scope, ttl, issuedAt, jti, want, now);
    RuntimesAgreeExactly(v);
    SignedNotEmpty(j, Claims(1, jti, TYP, scope, WholeSeconds(issuedAt), WholeSeconds(i.expiresAt)));
  }
}
