/** The Go executor: its keyed store of latest observations and its execution decision
    (executor/internal/boundary/boundary.go, executor-gin/cmd/server/grpc_server.go and main.go). */
module Boundary {
  import opened Text
  import opened Identities
  import opened Comparison
  import opened Capability
  import Policy

  const NUL: string := ['\U{0}']

  function TargetKey(v: Identity): string {
    Trim(Go, v.project) + NUL + Trim(Go, v.environment)
  }

  type Targets = map<string, Identity>

  function Lookup(targets: Targets, expected: Identity): Option<Identity> {
    if TargetKey(expected) in targets then Some(targets[TargetKey(expected)]) else None
  }

  /** The `Execute` handlers of both transports: gate an agent's context, read the store, compare.
      `None` is an error status, which the orchestrator sees as a failed boundary. */
  function GoExecute(j: Jws, sha: Hash, targets: Targets, expected: Identity, ctx: Option<Context>,
                     now: int): Option<Result> {
    if ctx.Some? && !ValidateAgent(j, sha, expected, ctx.value, now) then None
    else match Lookup(targets, expected)
      case None => None
      case Some(observed) => Some(GoCompare(sha, expected, observed))
  }

  /** executor_client.py `LocalExecutorClient.execute`. */
  function LocalExecute(j: Jws, sha: Hash, expected: Identity, observed: Identity, ctx: Option<Context>,
                        now: int): Option<Result> {
    if ctx.Some? && ctx.value.actorType == Policy.AGENT
       && !PyVerify(j, ctx.value.token,
                    Scope(ctx.value.epochId, ctx.value.actorType, ctx.value.actorId, expected.project,
                          expected.environment, ctx.value.action, ctx.value.approvedFingerprint),
                    now).Accepted?
    then None
    else Some(LocalCompare(sha, expected, observed))
  }

  /** The handler copies the differences into its response one by one. */
  method CopyDifferences(differences: seq<Difference>) returns (diffs: seq<Difference>)
    ensures diffs == differences
  {
    diffs := [];
    for i := 0 to |differences|
      invariant diffs == differences[..i]
    {
      diffs := diffs + [differences[i]];
    }
  }

  class TargetStore {
    var targets: Targets

    constructor ()
      ensures targets == map[]
    {
      targets := map[];
    }

    method Put(identity: Identity)
      modifies this
      ensures targets == old(targets)[TargetKey(identity) := identity]
      ensures Lookup(targets, identity) == Some(identity)
      ensures forall other: Identity :: TargetKey(other) != TargetKey(identity) ==>
                Lookup(targets, other) == Lookup(old(targets), other)
    {
      targets := targets[TargetKey(identity) := identity];
    }

    method Find(expected: Identity) returns (identity: Identity, ok: bool)
      ensures Lookup(targets, expected) == if ok then Some(identity) else None
    {
      ok := TargetKey(expected) in targets;
      identity := if ok then targets[TargetKey(expected)] else expected;
    }

    /** One `Execute` request against this store. */
    method Execute(j: Jws, sha: Hash, expected: Identity, ctx: Option<Context>, now: int) returns (r: Option<Result>)
      ensures r == GoExecute(j, sha, targets, expected, ctx, now)
    {
      if ctx.Some? && !ValidateAgent(j, sha, expected, ctx.value, now) {
        return None;
      }
      var observed, ok := Find(expected);
      if !ok {
        return None;
      }
      var result := Compare(sha, expected, observed);
      var diffs := CopyDifferences(result.differences);
      return Some(Result(result.outcome, result.observedFingerprint, result.reason, diffs));
    }
  }

  // ---------------------------------------------------------------- the key

  lemma {:induction false} NoNulAfter(a: string, b: string, x: string, y: string)
    requires a + NUL + x == b + NUL + y
    requires '\U{0}' !in x && '\U{0}' !in y
    ensures a == b && x == y
  {
    var s := a + NUL + x;
    assert s[|a|] == '\U{0}' && s[|b|] == '\U{0}';
    assert forall i :: |a| < i < |s| ==> s[i] == x[i - |a| - 1];
    assert forall i :: |b| < i < |s| ==> s[i] == y[i - |b| - 1];
    assert |a| == |b|;
    assert s[..|a|] == a && s[..|a|] == b;
    assert s[|a| + 1..] == x && s[|a| + 1..] == y;
  }

  /** With no NUL in the environments, the key tells projects and environments apart. */
  lemma TargetKeyInjective(a: Identity, b: Identity)
    requires '\U{0}' !in a.environment && '\U{0}' !in b.environment
    ensures TargetKey(a) == TargetKey(b) <==>
            Trim(Go, a.project) == Trim(Go, b.project) && Trim(Go, a.environment) == Trim(Go, b.environment)
  {
    TrimIsTrimmed(Go, a.environment);
    TrimIsTrimmed(Go, b.environment);
    if TargetKey(a) == TargetKey(b) {
      NoNulAfter(Trim(Go, a.project), Trim(Go, b.project), Trim(Go, a.environment), Trim(Go, b.environment));
    }
  }

  /** Without that restriction two different targets can share a key. */
  lemma TargetKeyCollision()
    ensures var a, b := Identity("a\U{0}b", "c", "", "", ""), Identity("a", "b\U{0}c", "", "", "");
            TargetKey(a) == TargetKey(b) && Trim(Go, a.project) != Trim(Go, b.project)
  {
    TrimFixpoint(Go, "a\U{0}b");
    TrimFixpoint(Go, "c");
    TrimFixpoint(Go, "a");
    TrimFixpoint(Go, "b\U{0}c");
    assert "a\U{0}b" + NUL + "c" == "a" + NUL + "b\U{0}c";
  }

  // ---------------------------------------------------------------- any sequence of observations

  function PutAll(targets: Targets, puts: seq<Identity>): Targets {
    if puts == [] then targets
    else PutAll(targets, puts[..|puts| - 1])[TargetKey(puts[|puts| - 1]) := puts[|puts| - 1]]
  }

  predicate SameTarget(a: Identity, b: Identity) {
    Trim(Go, a.project) == Trim(Go, b.project) && Trim(Go, a.environment) == Trim(Go, b.environment)
  }

  /** The last observation of the target `v` names. */
  function LastOf(puts: seq<Identity>, v: Identity): Option<Identity> {
    if puts == [] then None
    else if SameTarget(puts[|puts| - 1], v) then Some(puts[|puts| - 1])
    else LastOf(puts[..|puts| - 1], v)
  }

  /** After any sequence of observations the store answers with the last one made of the same
      trimmed project and environment. */
  lemma {:induction false} LookupIsLastPut(puts: seq<Identity>, v: Identity)
    requires '\U{0}' !in v.environment
    requires forall p :: p in puts ==> '\U{0}' !in p.environment
    ensures Lookup(PutAll(map[], puts), v) == LastOf(puts, v)
  {
    if puts != [] {
      var last := puts[|puts| - 1];
      assert last in puts;
      TargetKeyInjective(last, v);
      LookupIsLastPut(puts[..|puts| - 1], v);
    }
  }

  /** Every target is held under its own key, and no environment has a NUL. */
  ghost predicate HeldByKey(targets: Targets) {
    forall k :: k in targets ==> k == TargetKey(targets[k]) && '\U{0}' !in targets[k].environment
  }

  /** What the store answers with is a target of the release's own trimmed project and environment. */
  lemma LookupSameTarget(targets: Targets, e: Identity, o: Identity)
    requires HeldByKey(targets) && '\U{0}' !in e.environment && Lookup(targets, e) == Some(o)
    ensures SameTarget(e, o)
  {
    TargetKeyInjective(e, o);
  }

  /** The fields in which releases of one target can differ. */
  const MUTABLE: set<Field> := {CommitSha, ArtifactDigest, ConfigHash}

  /** At most three differences, all about what was deployed and none about where. */
  ghost predicate OnlyContent(ds: seq<Difference>) {
    |ds| <= 3 && forall d :: d in ds ==> d.field in MUTABLE
  }

  /** A release compared with what the store answers differs from it in content only. */
  lemma StoredDifferences(targets: Targets, e: Identity, o: Identity)
    requires HeldByKey(targets) && '\U{0}' !in e.environment && Lookup(targets, e) == Some(o)
    ensures OnlyContent(Diff(Go, e, o))
  {
    LookupSameTarget(targets, e, o);
    ContentDifferences(Go, e, o);
  }

  lemma ContentDifferences(rt: Runtime, e: Identity, o: Identity)
    requires Trim(rt, e.project) == Trim(rt, o.project) && Trim(rt, e.environment) == Trim(rt, o.environment)
    ensures OnlyContent(Diff(rt, e, o))
  {
    DiffExact(rt, e, o);
    CanonicalGet(rt, e, Project);
    CanonicalGet(rt, o, Project);
    CanonicalGet(rt, e, Environment);
    CanonicalGet(rt, o, Environment);
    forall d | d in Diff(rt, e, o)
      ensures d.field in MUTABLE
    {
      assert d.field != Project && d.field != Environment;
    }
    NamesDistinctFields(rt, e, o);
    Subset(FieldsOf(Diff(rt, e, o)), MUTABLE);
    assert MUTABLE == {CommitSha} + {ArtifactDigest} + {ConfigHash};
  }

  // ---------------------------------------------------------------- the two executors side by side

  /** The agent's request is one both gates would let through: a `deploy` whose capability the
      orchestrator accepts for this release now. */
  ghost predicate AcceptableAgent(j: Jws, sha: Hash, e: Identity, ctx: Context, now: int) {
    && ctx.action == "deploy" && ctx.token != ""
    && ctx.approvedFingerprint == Fingerprint(Python, sha, e)
    && PyVerify(j, ctx.token, EpochScope(sha, ctx.epochId, e, ctx.actorId, "deploy"), now).Accepted?
  }

  lemma BothGatesOpen(j: Jws, sha: Hash, e: Identity, o: Identity, ctx: Context, now: int)
    requires CommonAlphabet(e)
    requires ctx.actorType == Policy.AGENT ==> AcceptableAgent(j, sha, e, ctx, now)
    ensures ValidateAgent(j, sha, e, ctx, now)
    ensures LocalExecute(j, sha, e, o, Some(ctx), now) == Some(LocalCompare(sha, e, o))
  {
    if ctx.actorType == Policy.AGENT {
      RuntimesAgreeExactly(e);
      var scope := EpochScope(sha, ctx.epochId, e, ctx.actorId, "deploy");
      VerifiersAgree(j, ctx.token, scope, now, PyVerify(j, ctx.token, scope, now).claims);
    }
  }

  /** For one release and one observation of its target, the in-process and the Go executor answer
      alike: same outcome, fingerprint, reason and differences. */
  lemma ExecutorsAnswerAlike(j: Jws, sha: Hash, targets: Targets, e: Identity, o: Identity, ctx: Option<Context>,
                             now: int)
    requires CommonAlphabet(e) && CommonAlphabet(o)
    requires NoCollision(sha, CanonicalText(Python, e), CanonicalText(Python, o))
    requires Lookup(targets, e) == Some(o)
    requires ctx.Some? && ctx.value.actorType == Policy.AGENT ==> AcceptableAgent(j, sha, e, ctx.value, now)
    ensures LocalExecute(j, sha, e, o, ctx, now) == GoExecute(j, sha, targets, e, ctx, now)
    ensures GoExecute(j, sha, targets, e, ctx, now).Some?
  {
    ExecutorsAgree(sha, e, o);
    if ctx.Some? {
      BothGatesOpen(j, sha, e, o, ctx.value, now);
    }
  }
}
