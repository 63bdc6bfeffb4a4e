/** Field-by-field comparison of the frozen identity with the live target: `diff_identity`
    (orchestrator/app/fingerprint.py), `Compare` (executor/internal/core/core.go) and the decision
    of the in-process executor (orchestrator/app/executor_client.py). */
module Comparison {
  import opened Text
  import opened Json
  import opened Identities
  import Schemas

  datatype Difference = Difference(field: Field, expected: string, observed: string)

  datatype Outcome = Executed | DeniedStale

  datatype Result = Result(
    outcome: Outcome,
    observedFingerprint: string,
    reason: string,
    differences: seq<Difference>)

  const STALE: string := "승인 이후 실행 대상이 변경되었습니다: "
  const MATCH: string := "승인된 deployment identity와 live target이 일치합니다."

  /** The difference at one field, or nothing when the trimmed values are equal. */
  function At(rt: Runtime, e: Identity, o: Identity, f: Field): seq<Difference> {
    var x, y := Trim(rt, Get(e, f)), Trim(rt, Get(o, f));
    if x != y then [Difference(f, x, y)] else []
  }

  /** The differences at the first `n` fields. */
  function DiffUpTo(rt: Runtime, e: Identity, o: Identity, n: nat): seq<Difference>
    requires n <= 5
  {
    if n == 0 then [] else DiffUpTo(rt, e, o, n - 1) + At(rt, e, o, FIELDS[n - 1])
  }

  function Diff(rt: Runtime, e: Identity, o: Identity): seq<Difference> {
    DiffUpTo(rt, e, o, 5)
  }

  function JoinNames(ds: seq<Difference>): string {
    if ds == [] then ""
    else if |ds| == 1 then Name(ds[0].field)
    else JoinNames(ds[..|ds| - 1]) + ", " + Name(ds[|ds| - 1].field)
  }

  // ---------------------------------------------------------------- the two loops

  /** fingerprint.py `diff_identity`. */
  method DiffIdentity(expected: Identity, observed: Identity) returns (diffs: seq<Difference>)
    ensures diffs == Diff(Python, expected, observed)
  {
    diffs := [];
    for i := 0 to |FIELDS|
      invariant diffs == DiffUpTo(Python, expected, observed, i)
    {
      var field := FIELDS[i];
      var e, o := Trim(Python, Get(expected, field)), Trim(Python, Get(observed, field));
      if e != o {
        diffs := diffs + [Difference(field, e, o)];
      }
    }
  }

  /** What core.go `Compare` returns. */
  function GoCompare(sha: Hash, e: Identity, o: Identity): Result {
    var ds := Diff(Go, e, o);
    Result(if ds == [] then Executed else DeniedStale,
           Fingerprint(Go, sha, o),
           if ds == [] then MATCH else STALE + JoinNames(ds),
           ds)
  }

  method NameFields(diffs: seq<Difference>) returns (fields: string)
    ensures fields == JoinNames(diffs)
  {
    fields := "";
    for i := 0 to |diffs|
      invariant fields == JoinNames(diffs[..i])
    {
      assert diffs[..i + 1][..i] == diffs[..i];
      if i > 0 {
        fields := fields + ", ";
      }
      fields := fields + Name(diffs[i].field);
    }
    assert diffs[..|diffs|] == diffs;
  }

  method Compare(sha: Hash, expected: Identity, observed: Identity) returns (r: Result)
    ensures r == GoCompare(sha, expected, observed)
  {
    var diffs: seq<Difference> := [];
    for i := 0 to |FIELDS|
      invariant diffs == DiffUpTo(Go, expected, observed, i)
    {
      var e, o := Trim(Go, Get(expected, FIELDS[i])), Trim(Go, Get(observed, FIELDS[i]));
      if e != o {
        diffs := diffs + [Difference(FIELDS[i], e, o)];
      }
    }
    var observedFP := GoFingerprint(sha, observed);
    if |diffs| > 0 {
      var fields := NameFields(diffs);
      return Result(DeniedStale, observedFP, STALE + fields, diffs);
    }
    r := Result(Executed, observedFP, MATCH, diffs);
  }

  /** The decision of executor_client.py `LocalExecutorClient.execute`: fingerprints first. */
  function LocalCompare(sha: Hash, e: Identity, o: Identity): Result {
    var ds := Diff(Python, e, o);
    var same := Fingerprint(Python, sha, e) == Fingerprint(Python, sha, o);
    Result(if same then Executed else DeniedStale,
           Fingerprint(Python, sha, o),
           if same then MATCH else STALE + JoinNames(ds),
           ds)
  }

  // ---------------------------------------------------------------- the reason

  /** The names stand in the list's order with a comma and a space between any two neighbours. */
  lemma {:induction false} NamesJoined(a: seq<Difference>, b: seq<Difference>)
    requires a != [] && b != []
    ensures JoinNames(a + b) == JoinNames(a) + [',', ' '] + JoinNames(b)
  {
    var init, last := b[..|b| - 1], b[|b| - 1];
    assert (a + b)[..|a + b| - 1] == a + init;
    if init == [] {
      assert a + init == a && b == [last];
    } else {
      NamesJoined(a, init);
    }
  }

  lemma OneName(d: Difference)
    ensures JoinNames([d]) == Name(d.field) && JoinNames([]) == ""
  {
  }

  /** The texts of the two reasons, the second followed by the names of the fields that differ. */
  lemma ReasonsAre(sha: Hash, e: Identity, o: Identity)
    ensures var r := GoCompare(sha, e, o);
            r.reason == if r.outcome == Executed then "승인된 deployment identity와 live target이 일치합니다."
                        else "승인 이후 실행 대상이 변경되었습니다: " + JoinNames(r.differences)
    ensures var r := LocalCompare(sha, e, o);
            r.reason == if r.outcome == Executed then "승인된 deployment identity와 live target이 일치합니다."
                        else "승인 이후 실행 대상이 변경되었습니다: " + JoinNames(r.differences)
  {
    hide Fingerprint;
    hide Diff;
    hide JoinNames;
  }

  // ---------------------------------------------------------------- what a diff means

  function Position(f: Field): nat {
    match f
    case Project => 0
    case Environment => 1
    case CommitSha => 2
    case ArtifactDigest => 3
    case ConfigHash => 4
  }

  /** Overwrite the named fields by the observed values. */
  function Patch(v: Identity, ds: seq<Difference>): Identity
    decreases |ds|
  {
    if ds == [] then v else Patch(Set(v, ds[0].field, ds[0].observed), ds[1..])
  }

  lemma {:induction false} DiffUpToExact(rt: Runtime, e: Identity, o: Identity, n: nat)
    requires n <= 5
    ensures forall d :: d in DiffUpTo(rt, e, o, n) <==>
              && Position(d.field) < n
              && d.expected == Trim(rt, Get(e, d.field)) && d.observed == Trim(rt, Get(o, d.field))
              && d.expected != d.observed
  {
    if n > 0 {
      DiffUpToExact(rt, e, o, n - 1);
      assert FIELDS[n - 1] == [Project, Environment, CommitSha, ArtifactDigest, ConfigHash][n - 1];
      assert forall f :: Position(f) == n - 1 <==> f == FIELDS[n - 1];
    }
  }

  /** A difference is reported exactly where the trimmed values differ, with those values. */
  lemma DiffExact(rt: Runtime, e: Identity, o: Identity)
    ensures forall d :: d in Diff(rt, e, o) <==>
              && d.expected == Get(Canonical(rt, e), d.field)
              && d.observed == Get(Canonical(rt, o), d.field)
              && d.expected != d.observed
  {
    DiffUpToExact(rt, e, o, 5);
    forall f: Field
      ensures Get(Canonical(rt, e), f) == Trim(rt, Get(e, f)) && Get(Canonical(rt, o), f) == Trim(rt, Get(o, f))
    {
      CanonicalGet(rt, e, f);
      CanonicalGet(rt, o, f);
    }
  }

  lemma {:induction false} DiffUpToOrdered(rt: Runtime, e: Identity, o: Identity, n: nat)
    requires n <= 5
    ensures forall i, j :: 0 <= i < j < |DiffUpTo(rt, e, o, n)| ==>
              Position(DiffUpTo(rt, e, o, n)[i].field) < Position(DiffUpTo(rt, e, o, n)[j].field)
  {
    if n > 0 {
      DiffUpToOrdered(rt, e, o, n - 1);
      DiffUpToExact(rt, e, o, n - 1);
      var ds := DiffUpTo(rt, e, o, n - 1);
      assert forall i :: 0 <= i < |ds| ==> ds[i] in ds;
      assert Position(FIELDS[n - 1]) == n - 1;
    }
  }

  /** The report follows field order and names no field twice. */
  lemma DiffOrdered(rt: Runtime, e: Identity, o: Identity)
    ensures forall i, j :: 0 <= i < j < |Diff(rt, e, o)| ==>
              Position(Diff(rt, e, o)[i].field) < Position(Diff(rt, e, o)[j].field)
  {
    DiffUpToOrdered(rt, e, o, 5);
  }

  ghost predicate Mentions(ds: seq<Difference>, f: Field) {
    exists i :: 0 <= i < |ds| && ds[i].field == f
  }

  lemma {:induction false} PatchKeeps(v: Identity, ds: seq<Difference>, f: Field)
    requires !Mentions(ds, f)
    ensures Get(Patch(v, ds), f) == Get(v, f)
    decreases |ds|
  {
    if ds != [] {
      assert ds[0].field != f;
      PatchKeeps(Set(v, ds[0].field, ds[0].observed), ds[1..], f);
    }
  }

  lemma {:induction false} PatchSets(v: Identity, ds: seq<Difference>, f: Field, x: string)
    requires Mentions(ds, f)
    requires forall d :: d in ds && d.field == f ==> d.observed == x
    ensures Get(Patch(v, ds), f) == x
    decreases |ds|
  {
    var v' := Set(v, ds[0].field, ds[0].observed);
    if Mentions(ds[1..], f) {
      PatchSets(v', ds[1..], f, x);
    } else {
      PatchKeeps(v', ds[1..], f);
      var i :| 0 <= i < |ds| && ds[i].field == f;
      assert forall j :: 1 <= j < |ds| ==> ds[j] == ds[1..][j - 1];
      assert ds[0] in ds;
    }
  }

  /** Applying the diff to the trimmed expected identity gives the trimmed observed identity. */
  lemma PatchDiff(rt: Runtime, e: Identity, o: Identity)
    ensures Patch(Canonical(rt, e), Diff(rt, e, o)) == Canonical(rt, o)
  {
    DiffExact(rt, e, o);
    var ds, from, to := Diff(rt, e, o), Canonical(rt, e), Canonical(rt, o);
    forall f
      ensures Get(Patch(from, ds), f) == Get(to, f)
    {
      if Get(from, f) != Get(to, f) {
        assert Difference(f, Get(from, f), Get(to, f)) in ds;
        PatchSets(from, ds, f, Get(to, f));
      } else {
        assert forall i :: 0 <= i < |ds| ==> ds[i] in ds;
        PatchKeeps(from, ds, f);
      }
    }
    SameFields(Patch(from, ds), to);
  }

  lemma SameFields(a: Identity, b: Identity)
    requires forall f :: Get(a, f) == Get(b, f)
    ensures a == b
  {
    assert Get(a, Project) == Get(b, Project) && Get(a, Environment) == Get(b, Environment)
        && Get(a, CommitSha) == Get(b, CommitSha) && Get(a, ArtifactDigest) == Get(b, ArtifactDigest)
        && Get(a, ConfigHash) == Get(b, ConfigHash);
  }

  function FieldsOf(ds: seq<Difference>): set<Field> {
    set d | d in ds :: d.field
  }

  lemma {:induction false} FieldCount(ds: seq<Difference>)
    ensures |FieldsOf(ds)| <= |ds|
    ensures (forall i, j :: 0 <= i < j < |ds| ==> ds[i].field != ds[j].field) ==> |FieldsOf(ds)| == |ds|
  {
    if ds != [] {
      var init, last := ds[..|ds| - 1], ds[|ds| - 1];
      FieldCount(init);
      assert ds == init + [last];
      assert FieldsOf(ds) == FieldsOf(init) + {last.field};
      if forall i, j :: 0 <= i < j < |ds| ==> ds[i].field != ds[j].field {
        assert last.field !in FieldsOf(init);
      }
    }
  }

  lemma ChangedIsMentioned(v: Identity, ds: seq<Difference>, f: Field)
    requires Get(Patch(v, ds), f) != Get(v, f)
    ensures f in FieldsOf(ds)
  {
    if !Mentions(ds, f) {
      PatchKeeps(v, ds, f);
      assert false;
    }
  }

  lemma DiffFieldMentioned(rt: Runtime, e: Identity, o: Identity, ds: seq<Difference>, d: Difference)
    requires Patch(Canonical(rt, e), ds) == Canonical(rt, o)
    requires d in Diff(rt, e, o)
    ensures d.field in FieldsOf(ds)
  {
    DiffExact(rt, e, o);
    ChangedIsMentioned(Canonical(rt, e), ds, d.field);
  }

  lemma NamesDistinctFields(rt: Runtime, e: Identity, o: Identity)
    ensures |Diff(rt, e, o)| == |FieldsOf(Diff(rt, e, o))|
  {
    DiffOrdered(rt, e, o);
    FieldCount(Diff(rt, e, o));
  }

  /** Every list of changes that works mentions every field the diff mentions. */
  lemma DiffNecessary(rt: Runtime, e: Identity, o: Identity, ds: seq<Difference>)
    requires Patch(Canonical(rt, e), ds) == Canonical(rt, o)
    ensures FieldsOf(Diff(rt, e, o)) <= FieldsOf(ds)
  {
    forall d | d in Diff(rt, e, o)
      ensures d.field in FieldsOf(ds)
    {
      DiffFieldMentioned(rt, e, o, ds, d);
    }
  }

  /** No shorter list of changes turns the one trimmed identity into the other. */
  lemma {:induction false} DiffMinimal(rt: Runtime, e: Identity, o: Identity, ds: seq<Difference>)
    requires Patch(Canonical(rt, e), ds) == Canonical(rt, o)
    ensures |Diff(rt, e, o)| <= |ds|
  {
    DiffNecessary(rt, e, o, ds);
    NamesDistinctFields(rt, e, o);
    FieldCount(ds);
    Subset(FieldsOf(Diff(rt, e, o)), FieldsOf(ds));
  }

  lemma {:induction false} Subset(a: set<Field>, b: set<Field>)
    requires a <= b
    ensures |a| <= |b|
  {
    assert b == a + (b - a);
  }

  /** Nothing is reported exactly when the trimmed identities are equal. */
  lemma DiffEmpty(rt: Runtime, e: Identity, o: Identity)
    ensures Diff(rt, e, o) == [] <==> Canonical(rt, e) == Canonical(rt, o)
  {
    PatchDiff(rt, e, o);
    DiffExact(rt, e, o);
    assert Diff(rt, e, o) != [] ==> Diff(rt, e, o)[0] in Diff(rt, e, o);
  }

  /** EXECUTED means the trimmed identities were equal; DENIED_STALE comes with at least one
      difference. */
  lemma CompareDecides(sha: Hash, e: Identity, o: Identity)
    ensures GoCompare(sha, e, o).outcome == Executed <==> Canonical(Go, e) == Canonical(Go, o)
    ensures GoCompare(sha, e, o).outcome == DeniedStale <==> GoCompare(sha, e, o).differences != []
  {
    DiffEmpty(Go, e, o);
  }

  /** The in-process decision goes by the fingerprints. A refusal always has differences to show;
      without a collision between the two texts EXECUTED means equal trimmed identities and a
      refusal unequal ones, as for Go. */
  lemma LocalDecides(sha: Hash, e: Identity, o: Identity)
    ensures LocalCompare(sha, e, o).outcome == Executed <==> Fingerprint(Python, sha, e) == Fingerprint(Python, sha, o)
    ensures LocalCompare(sha, e, o).outcome == DeniedStale ==> LocalCompare(sha, e, o).differences != []
    ensures NoCollision(sha, CanonicalText(Python, e), CanonicalText(Python, o)) ==>
              && (LocalCompare(sha, e, o).outcome == Executed <==> Canonical(Python, e) == Canonical(Python, o))
              && (LocalCompare(sha, e, o).outcome == DeniedStale <==> LocalCompare(sha, e, o).differences != [])
  {
    DiffEmpty(Python, e, o);
    if NoCollision(sha, CanonicalText(Python, e), CanonicalText(Python, o)) {
      FingerprintsSeparate(Python, sha, e, o);
    }
  }

  lemma {:induction false} DiffsAgree(e: Identity, o: Identity, n: nat)
    requires n <= 5
    requires Canonical(Python, e) == Canonical(Go, e) && Canonical(Python, o) == Canonical(Go, o)
    ensures DiffUpTo(Python, e, o, n) == DiffUpTo(Go, e, o, n)
  {
    if n > 0 {
      DiffsAgree(e, o, n - 1);
      var f := FIELDS[n - 1];
      CanonicalGet(Python, e, f);
      CanonicalGet(Go, e, f);
      CanonicalGet(Python, o, f);
      CanonicalGet(Go, o, f);
    }
  }

  /** Fingerprint-first and diff-first decide alike, with the same report, over the common
      alphabet and without a collision between the two texts. */
  lemma ExecutorsAgree(sha: Hash, e: Identity, o: Identity)
    requires CommonAlphabet(e) && CommonAlphabet(o)
    requires NoCollision(sha, CanonicalText(Python, e), CanonicalText(Python, o))
    ensures LocalCompare(sha, e, o) == GoCompare(sha, e, o)
  {
    RuntimesAgreeExactly(e);
    RuntimesAgreeExactly(o);
    DiffsAgree(e, o, 5);
    FingerprintsSeparate(Python, sha, e, o);
    DiffEmpty(Python, e, o);
  }

  /** For the decision alone the alphabet does not matter: where the two runtimes trim both
      identities alike, outcome, reason and differences are the same without a collision. */
  lemma DecisionsAgree(sha: Hash, e: Identity, o: Identity)
    requires Canonical(Python, e) == Canonical(Go, e) && Canonical(Python, o) == Canonical(Go, o)
    requires NoCollision(sha, CanonicalText(Python, e), CanonicalText(Python, o))
    ensures LocalCompare(sha, e, o).outcome == GoCompare(sha, e, o).outcome
    ensures LocalCompare(sha, e, o).reason == GoCompare(sha, e, o).reason
    ensures LocalCompare(sha, e, o).differences == GoCompare(sha, e, o).differences
  {
    DiffsAgree(e, o, 5);
    LocalDecides(sha, e, o);
    CompareDecides(sha, e, o);
  }

  /** The observed fingerprints of the two executors are equal exactly on the common alphabet. */
  lemma ObservedFingerprintsAgreeExactly(sha: Hash, e: Identity, o: Identity)
    requires NoCollision(sha, CanonicalText(Python, o), CanonicalText(Go, o))
    ensures LocalCompare(sha, e, o).observedFingerprint == GoCompare(sha, e, o).observedFingerprint
            <==> CommonAlphabet(o)
  {
    RuntimesAgreeExactly(o);
  }

  /** An EXECUTED comparison through Go shows two different fingerprints exactly when the release
      is outside the common alphabet. */
  lemma ExecutedSplitsExactly(sha: Hash, e: Identity, o: Identity)
    requires GoCompare(sha, e, o).outcome == Executed
    requires NoCollision(sha, CanonicalText(Python, e), CanonicalText(Go, e))
    ensures Fingerprint(Python, sha, e) != GoCompare(sha, e, o).observedFingerprint <==> !CommonAlphabet(e)
  {
    CompareDecides(sha, e, o);
    ItemsOfCanonical(Go, e, o);
    RuntimesAgreeExactly(e);
  }

  lemma ItemsOfCanonical(rt: Runtime, a: Identity, b: Identity)
    requires Canonical(rt, a) == Canonical(rt, b)
    ensures CanonicalText(rt, a) == CanonicalText(rt, b)
  {
  }

  function Repeat(c: char, n: nat): (s: string)
    ensures |s| == n && forall i :: 0 <= i < n ==> s[i] == c
  {
    if n == 0 then "" else [c] + Repeat(c, n - 1)
  }

  const HEX64: string := Repeat('a', 64)

  /** A release of a project named `R&D`, as the API takes it. */
  const AMPERSAND: Identity := Identity("R&D", "prod", "8f375e7", "sha256:" + HEX64, "sha256:" + HEX64)

  /** The API takes this release as it stands, and it is outside the common alphabet: unchanged,
      it executes with two different fingerprints on its receipt. */
  lemma AmpersandSplitsFingerprints(sha: Hash)
    requires NoCollision(sha, CanonicalText(Python, AMPERSAND), CanonicalText(Go, AMPERSAND))
    ensures Schemas.ParseIdentity(AMPERSAND) == Some(AMPERSAND)
    ensures GoCompare(sha, AMPERSAND, AMPERSAND).outcome == Executed
    ensures GoCompare(sha, AMPERSAND, AMPERSAND).observedFingerprint != Fingerprint(Python, sha, AMPERSAND)
  {
    AmpersandAccepted();
    CompareDecides(sha, AMPERSAND, AMPERSAND);
    ExecutedSplitsExactly(sha, AMPERSAND, AMPERSAND);
  }

  lemma AmpersandAccepted()
    ensures Schemas.ParseIdentity(AMPERSAND) == Some(AMPERSAND) && !CommonAlphabet(AMPERSAND)
  {
    Hex64Digest("sha256:" + HEX64);
    assert Schemas.IsLower("8f375e7");
    assert Schemas.ValidIdentity(AMPERSAND);
    Schemas.ValidExactly(AMPERSAND);
    TrimFixpoint(Go, "R&D");
    assert OnlyGoEscapes("R&D"[1]);
    assert !CommonField("R&D");
  }

  lemma Hex64Digest(s: string)
    requires s == "sha256:" + HEX64
    ensures Schemas.IsDigest(s) && Schemas.IsLower(s)
  {
    assert s[..7] == "sha256:" && s[7..] == HEX64;
    assert Schemas.Lower(s) == s;
  }
}
