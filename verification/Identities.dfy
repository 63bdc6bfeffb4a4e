/** Release identities and the canonical text under their fingerprint
    (orchestrator/app/fingerprint.py, executor/internal/core/core.go). */
module Identities {
  import opened Text
  import opened Json

  datatype Identity = Identity(
    project: string,
    environment: string,
    commitSha: string,
    artifactDigest: string,
    configHash: string)

  datatype Field = Project | Environment | CommitSha | ArtifactDigest | ConfigHash

  /** The order in which differences are reported. */
  const FIELDS: seq<Field> := [Project, Environment, CommitSha, ArtifactDigest, ConfigHash]

  function Name(f: Field): string {
    match f
    case Project => "project"
    case Environment => "environment"
    case CommitSha => "commit_sha"
    case ArtifactDigest => "artifact_digest"
    case ConfigHash => "config_hash"
  }

  function Get(v: Identity, f: Field): string {
    match f
    case Project => v.project
    case Environment => v.environment
    case CommitSha => v.commitSha
    case ArtifactDigest => v.artifactDigest
    case ConfigHash => v.configHash
  }

  function Set(v: Identity, f: Field, x: string): Identity {
    match f
    case Project => v.(project := x)
    case Environment => v.(environment := x)
    case CommitSha => v.(commitSha := x)
    case ArtifactDigest => v.(artifactDigest := x)
    case ConfigHash => v.(configHash := x)
  }

  /** The identity with every field trimmed as the runtime trims it. */
  function Canonical(rt: Runtime, v: Identity): Identity {
    Identity(Trim(rt, v.project), Trim(rt, v.environment), Trim(rt, v.commitSha),
             Trim(rt, v.artifactDigest), Trim(rt, v.configHash))
  }

  lemma CanonicalGet(rt: Runtime, v: Identity, f: Field)
    ensures Get(Canonical(rt, v), f) == Trim(rt, Get(v, f))
  {
  }

  /** SHA-256 followed by hex: any function from text to text. */
  type Hash = string -> string

  /** The trimmed fields under their wire names, keys in increasing order. */
  function CanonicalItems(rt: Runtime, v: Identity): Members {
    [("artifact_digest", Trim(rt, v.artifactDigest)),
     ("commit_sha", Trim(rt, v.commitSha)),
     ("config_hash", Trim(rt, v.configHash)),
     ("environment", Trim(rt, v.environment)),
     ("project", Trim(rt, v.project))]
  }

  function CanonicalText(rt: Runtime, v: Identity): string {
    EncodeObject(rt, CanonicalItems(rt, v))
  }

  function Fingerprint(rt: Runtime, sha: Hash, v: Identity): string {
    sha(CanonicalText(rt, v))
  }

  // ---------------------------------------------------------------- which text is hashed

  /** One member as it stands in the text. */
  function Member(key: string, value: string): string {
    ['"'] + key + ['"', ':', '"'] + value + ['"']
  }

  /** The canonical text, in full: five members in this order, nothing between them but commas. */
  lemma CanonicalTextWritten(rt: Runtime, v: Identity)
    ensures CanonicalText(rt, v)
            == "{" + Member("artifact_digest", EscapeAll(rt, Trim(rt, v.artifactDigest)))
               + "," + Member("commit_sha", EscapeAll(rt, Trim(rt, v.commitSha)))
               + "," + Member("config_hash", EscapeAll(rt, Trim(rt, v.configHash)))
               + "," + Member("environment", EscapeAll(rt, Trim(rt, v.environment)))
               + "," + Member("project", EscapeAll(rt, Trim(rt, v.project))) + "}"
  {
    hide Trim;
    hide EscapeAll;
    hide Member;
    var items := CanonicalItems(rt, v);
    KeysAsIs(rt);
    MemberWritten(rt, Name(ArtifactDigest), Trim(rt, v.artifactDigest));
    MemberWritten(rt, Name(CommitSha), Trim(rt, v.commitSha));
    MemberWritten(rt, Name(ConfigHash), Trim(rt, v.configHash));
    MemberWritten(rt, Name(Environment), Trim(rt, v.environment));
    MemberWritten(rt, Name(Project), Trim(rt, v.project));
    hide EncodeMember;
    TailWritten(rt, items);
    hide EncodeObject;
  }

  lemma MemberWritten(rt: Runtime, key: string, value: string)
    requires EscapeAll(rt, key) == key
    ensures EncodeMember(rt, (key, value)) == Member(key, EscapeAll(rt, value))
  {
    hide EscapeAll;
  }

  lemma KeysAsIs(rt: Runtime)
    ensures forall f: Field :: EscapeAll(rt, Name(f)) == Name(f)
  {
    forall f: Field
      ensures EscapeAll(rt, Name(f)) == Name(f)
    {
      PlainAsIs(rt, Name(f));
    }
  }

  lemma TailWritten(rt: Runtime, ms: Members)
    requires |ms| == 5
    ensures EncodeObject(rt, ms)
            == "{" + EncodeMember(rt, ms[0]) + "," + EncodeMember(rt, ms[1]) + "," + EncodeMember(rt, ms[2])
               + "," + EncodeMember(rt, ms[3]) + "," + EncodeMember(rt, ms[4]) + "}"
  {
    hide EncodeMember;
    var t4, t3, t2, t1 := ms[4..], ms[3..], ms[2..], ms[1..];
    assert t1[1..] == t2 && t2[1..] == t3 && t3[1..] == t4 && t4[1..] == [];
    assert EncodeTail(rt, []) == "}";
    assert EncodeTail(rt, t4) == "," + EncodeMember(rt, ms[4]) + "}";
    assert EncodeTail(rt, t3) == "," + EncodeMember(rt, ms[3]) + EncodeTail(rt, t4);
    assert EncodeTail(rt, t2) == "," + EncodeMember(rt, ms[2]) + EncodeTail(rt, t3);
    assert EncodeTail(rt, t1) == "," + EncodeMember(rt, ms[1]) + EncodeTail(rt, t2);
  }

  /** A release of plain characters, whatever they are: the hash is that of its trimmed values
      between fixed keys and punctuation. */
  lemma PlainFingerprint(rt: Runtime, sha: Hash, v: Identity)
    requires forall f: Field, c :: c in Trim(rt, Get(v, f)) ==> Plain(rt, c)
    ensures Fingerprint(rt, sha, v)
            == sha("{" + Member("artifact_digest", Trim(rt, v.artifactDigest))
                   + "," + Member("commit_sha", Trim(rt, v.commitSha))
                   + "," + Member("config_hash", Trim(rt, v.configHash))
                   + "," + Member("environment", Trim(rt, v.environment))
                   + "," + Member("project", Trim(rt, v.project)) + "}")
  {
    hide Trim;
    hide Plain;
    hide Member;
    CanonicalTextWritten(rt, v);
    PlainAsIs(rt, Trim(rt, Get(v, ArtifactDigest)));
    PlainAsIs(rt, Trim(rt, Get(v, CommitSha)));
    PlainAsIs(rt, Trim(rt, Get(v, ConfigHash)));
    PlainAsIs(rt, Trim(rt, Get(v, Environment)));
    PlainAsIs(rt, Trim(rt, Get(v, Project)));
    hide CanonicalText;
    hide EscapeAll;
  }

  // ---------------------------------------------------------------- unique decoding

  /** The text decodes to the five trimmed fields, for every identity. */
  lemma DecodeCanonicalText(rt: Runtime, v: Identity)
    ensures DecodeObject(CanonicalText(rt, v)) == Some(CanonicalItems(rt, v))
  {
    DecodeEncode(rt, CanonicalItems(rt, v));
  }

  lemma ItemsDetermineIdentity(ra: Runtime, a: Identity, rb: Runtime, b: Identity)
    requires CanonicalItems(ra, a) == CanonicalItems(rb, b)
    ensures Canonical(ra, a) == Canonical(rb, b)
  {
    var x, y := CanonicalItems(ra, a), CanonicalItems(rb, b);
    assert x[0].1 == y[0].1 && x[1].1 == y[1].1 && x[2].1 == y[2].1 && x[3].1 == y[3].1 && x[4].1 == y[4].1;
  }

  /** Equal texts mean equal trimmed identities, even when different runtimes wrote them. */
  lemma CanonicalTextInjective(ra: Runtime, a: Identity, rb: Runtime, b: Identity)
    requires CanonicalText(ra, a) == CanonicalText(rb, b)
    ensures Canonical(ra, a) == Canonical(rb, b)
  {
    DecodeCanonicalText(ra, a);
    DecodeCanonicalText(rb, b);
    ItemsDetermineIdentity(ra, a, rb, b);
  }

  /** The hash separates these two texts. Collision freedom is assumed only where it is used. */
  ghost predicate NoCollision(sha: Hash, x: string, y: string) {
    sha(x) == sha(y) ==> x == y
  }

  /** Within one runtime two fingerprints are equal exactly when the trimmed identities are. */
  lemma FingerprintsSeparate(rt: Runtime, sha: Hash, a: Identity, b: Identity)
    requires NoCollision(sha, CanonicalText(rt, a), CanonicalText(rt, b))
    ensures Fingerprint(rt, sha, a) == Fingerprint(rt, sha, b) <==> Canonical(rt, a) == Canonical(rt, b)
  {
    if Canonical(rt, a) == Canonical(rt, b) {
      assert CanonicalItems(rt, a) == CanonicalItems(rt, b);
    }
    if Fingerprint(rt, sha, a) == Fingerprint(rt, sha, b) {
      CanonicalTextInjective(rt, a, rt, b);
    }
  }

  // ---------------------------------------------------------------- agreement of the two runtimes

  /** After Go's trim, the field neither begins nor ends with a separator control and holds
      nothing that only Go escapes. */
  predicate CommonField(s: string) {
    IsTrimmed(Python, Trim(Go, s)) && SharedAlphabet(Trim(Go, s))
  }

  predicate CommonAlphabet(v: Identity) {
    && CommonField(v.project) && CommonField(v.environment) && CommonField(v.commitSha)
    && CommonField(v.artifactDigest) && CommonField(v.configHash)
  }

  lemma KeysShared()
    ensures SharedAlphabet("artifact_digest") && SharedAlphabet("commit_sha") && SharedAlphabet("config_hash")
    ensures SharedAlphabet("environment") && SharedAlphabet("project")
  {
  }

  lemma ItemsShared(rt: Runtime, v: Identity)
    ensures MembersShared(CanonicalItems(rt, v)) <==>
            && SharedAlphabet(Trim(rt, v.project)) && SharedAlphabet(Trim(rt, v.environment))
            && SharedAlphabet(Trim(rt, v.commitSha)) && SharedAlphabet(Trim(rt, v.artifactDigest))
            && SharedAlphabet(Trim(rt, v.configHash))
  {
    KeysShared();
    var ms := CanonicalItems(rt, v);
    assert ms[0].1 == Trim(rt, v.artifactDigest) && ms[1].1 == Trim(rt, v.commitSha)
        && ms[2].1 == Trim(rt, v.configHash) && ms[3].1 == Trim(rt, v.environment) && ms[4].1 == Trim(rt, v.project);
  }

  lemma TrimsAgreeOnAll(v: Identity)
    ensures Canonical(Python, v) == Canonical(Go, v) <==>
            && IsTrimmed(Python, Trim(Go, v.project)) && IsTrimmed(Python, Trim(Go, v.environment))
            && IsTrimmed(Python, Trim(Go, v.commitSha)) && IsTrimmed(Python, Trim(Go, v.artifactDigest))
            && IsTrimmed(Python, Trim(Go, v.configHash))
  {
    TrimsAgreeExactly(v.project);
    TrimsAgreeExactly(v.environment);
    TrimsAgreeExactly(v.commitSha);
    TrimsAgreeExactly(v.artifactDigest);
    TrimsAgreeExactly(v.configHash);
  }

  lemma TextsGivenEqualTrims(v: Identity)
    requires Canonical(Python, v) == Canonical(Go, v)
    ensures CanonicalText(Python, v) == CanonicalText(Go, v) <==> MembersShared(CanonicalItems(Go, v))
  {
    assert CanonicalItems(Python, v) == CanonicalItems(Go, v) by {
      assert Canonical(Python, v).project == Canonical(Go, v).project;
    }
    EncodersAgree(CanonicalItems(Go, v));
  }

  /** The two runtimes hash the same text for an identity exactly when it is in the common
      alphabet. `project` has no pattern, so an identity outside it is accepted. */
  lemma RuntimesAgreeExactly(v: Identity)
    ensures CanonicalText(Python, v) == CanonicalText(Go, v) <==> CommonAlphabet(v)
    ensures CommonAlphabet(v) ==> Canonical(Python, v) == Canonical(Go, v)
  {
    TrimsAgreeOnAll(v);
    ItemsShared(Go, v);
    if Canonical(Python, v) == Canonical(Go, v) {
      TextsGivenEqualTrims(v);
    } else if CanonicalText(Python, v) == CanonicalText(Go, v) {
      CanonicalTextInjective(Python, v, Go, v);
      assert false;
    }
  }

  // ---------------------------------------------------------------- the key order

  function KeysOf(items: Members): seq<string> {
    seq(|items|, i requires 0 <= i < |items| => items[i].0)
  }

  /** `items` lists the map's entries with its keys in increasing order. */
  ghost predicate ListsInOrder(items: Members, m: map<string, string>) {
    && Increasing(KeysOf(items))
    && (forall k :: k in KeysOf(items) <==> k in m)
    && (forall i :: 0 <= i < |items| ==> items[i].0 in m && items[i].1 == m[items[i].0])
  }

  lemma ListingUnique(a: Members, b: Members, m: map<string, string>)
    requires ListsInOrder(a, m) && ListsInOrder(b, m)
    ensures a == b
  {
    IncreasingListingUnique(KeysOf(a), KeysOf(b));
    assert |KeysOf(a)| == |a| && |KeysOf(b)| == |b|;
    forall i | 0 <= i < |a|
      ensures a[i] == b[i]
    {
      assert KeysOf(a)[i] == a[i].0 && KeysOf(b)[i] == b[i].0;
    }
  }

  /** The dictionary both runtimes build before encoding. */
  function CanonicalMap(rt: Runtime, v: Identity): map<string, string> {
    map["artifact_digest" := Trim(rt, v.artifactDigest),
        "commit_sha" := Trim(rt, v.commitSha),
        "config_hash" := Trim(rt, v.configHash),
        "environment" := Trim(rt, v.environment),
        "project" := Trim(rt, v.project)]
  }

  const SORTED_NAMES: seq<string> := ["artifact_digest", "commit_sha", "config_hash", "environment", "project"]

  lemma SortedNamesIncrease()
    ensures Increasing(SORTED_NAMES)
  {
    CommitBeforeConfig();
  }

  lemma CommitBeforeConfig()
    ensures Before("commit_sha", "config_hash")
  {
    assert "commit_sha"[1..] == "ommit_sha" && "config_hash"[1..] == "onfig_hash";
    assert "ommit_sha"[1..] == "mmit_sha" && "onfig_hash"[1..] == "nfig_hash";
    assert Before("mmit_sha", "nfig_hash");
    assert Before("ommit_sha", "onfig_hash");
  }

  /** The order written out in `CanonicalItems` is the sorted order of the dictionary's keys. */
  lemma CanonicalItemsListed(rt: Runtime, v: Identity)
    ensures ListsInOrder(CanonicalItems(rt, v), CanonicalMap(rt, v))
  {
    hide Trim;
    SortedNamesIncrease();
    assert KeysOf(CanonicalItems(rt, v)) == SORTED_NAMES;
    DistinctNames();
    EntriesMatch(Trim(rt, v.artifactDigest), Trim(rt, v.commitSha), Trim(rt, v.configHash), Trim(rt, v.environment),
                 Trim(rt, v.project));
    var m := CanonicalMap(rt, v);
    forall k
      ensures k in SORTED_NAMES <==> k in m
    {
      InNames(k);
    }
  }

  lemma InNames(k: string)
    ensures k in SORTED_NAMES <==>
            k == "artifact_digest" || k == "commit_sha" || k == "config_hash" || k == "environment" || k == "project"
  {
    var names := SORTED_NAMES;
    assert names[0] == "artifact_digest" && names[1] == "commit_sha" && names[2] == "config_hash"
        && names[3] == "environment" && names[4] == "project";
  }

  lemma EntriesMatch(a: string, b: string, c: string, d: string, e: string)
    ensures var items := [("artifact_digest", a), ("commit_sha", b), ("config_hash", c), ("environment", d),
                          ("project", e)];
            var m := map["artifact_digest" := a, "commit_sha" := b, "config_hash" := c, "environment" := d,
                         "project" := e];
            forall i :: 0 <= i < |items| ==> items[i].0 in m && items[i].1 == m[items[i].0]
  {
    DistinctNames();
    var names := SORTED_NAMES;
    assert names[0] == "artifact_digest" && names[1] == "commit_sha" && names[2] == "config_hash"
        && names[3] == "environment" && names[4] == "project";
  }

  lemma DistinctNames()
    ensures forall i, j :: 0 <= i < j < 5 ==> SORTED_NAMES[i] != SORTED_NAMES[j]
  {
    SortedNamesIncrease();
    forall i, j | 0 <= i < j < 5
      ensures SORTED_NAMES[i] != SORTED_NAMES[j]
    {
      BeforeIrreflexive(SORTED_NAMES[i]);
    }
  }

  // ---------------------------------------------------------------- Go's fingerprint, step by step

  function Insert(k: string, sorted: seq<string>): seq<string> {
    if sorted == [] then [k]
    else if Before(sorted[0], k) then [sorted[0]] + Insert(k, sorted[1..])
    else [k] + sorted
  }

  /** `sort.Strings`. */
  function SortStrings(keys: seq<string>): seq<string> {
    if keys == [] then [] else Insert(keys[0], SortStrings(keys[1..]))
  }

  lemma {:induction false} InsertMembers(k: string, sorted: seq<string>)
    ensures forall x :: x in Insert(k, sorted) <==> x == k || x in sorted
    ensures |Insert(k, sorted)| == |sorted| + 1
  {
    if sorted != [] && Before(sorted[0], k) {
      InsertMembers(k, sorted[1..]);
    }
  }

  lemma {:induction false} InsertIncreasing(k: string, sorted: seq<string>)
    requires Increasing(sorted) && k !in sorted
    ensures Increasing(Insert(k, sorted))
  {
    if sorted != [] {
      if Before(sorted[0], k) {
        InsertIncreasing(k, sorted[1..]);
        InsertMembers(k, sorted[1..]);
        var rest := Insert(k, sorted[1..]);
        forall j | 0 <= j < |rest|
          ensures Before(sorted[0], rest[j])
        {
          assert rest[j] in rest;
          if rest[j] != k {
            var n :| 0 <= n < |sorted[1..]| && sorted[1..][n] == rest[j];
            assert sorted[n + 1] == rest[j];
          }
        }
      } else {
        BeforeTotal(sorted[0], k);
        forall j | 0 <= j < |sorted|
          ensures Before(k, sorted[j])
        {
          if j > 0 {
            BeforeTransitive(k, sorted[0], sorted[j]);
          }
        }
      }
    }
  }

  ghost predicate Distinct(keys: seq<string>) {
    forall i, j :: 0 <= i < j < |keys| ==> keys[i] != keys[j]
  }

  lemma {:induction false} SortedIncreasing(keys: seq<string>)
    requires Distinct(keys)
    ensures Increasing(SortStrings(keys))
    ensures forall x :: x in SortStrings(keys) <==> x in keys
  {
    if keys != [] {
      SortedIncreasing(keys[1..]);
      InsertMembers(keys[0], SortStrings(keys[1..]));
      assert keys[0] !in keys[1..];
      InsertIncreasing(keys[0], SortStrings(keys[1..]));
      assert keys == [keys[0]] + keys[1..];
    }
  }

  /** `for k := range m`: the keys in whatever order the map yields them. */
  method RangeKeys(m: map<string, string>) returns (keys: seq<string>)
    ensures Distinct(keys)
    ensures forall k :: k in keys <==> k in m
  {
    keys := [];
    var rest := m.Keys;
    while rest != {}
      invariant Distinct(keys)
      invariant rest <= m.Keys
      invariant forall k :: k in keys <==> k in m && k !in rest
    {
      var k :| k in rest;
      keys := keys + [k];
      rest := rest - {k};
    }
  }

  /** The part of the object text written once `i` members are out. */
  function Written(items: Members, i: nat): string
    requires i <= |items|
  {
    if i == 0 then "{"
    else Written(items, i - 1) + (if i > 1 then "," else "") + EncodeMember(Go, items[i - 1])
  }

  lemma Regroup(before: string, member: string, tail: string)
    ensures before + "," + member + tail == before + ("," + member + tail)
    ensures "{" + "" + member + tail == "{" + member + tail
  {
  }

  lemma {:induction false} WrittenThenRest(items: Members, i: nat)
    requires 0 < i <= |items|
    ensures Written(items, i) + EncodeTail(Go, items[i..]) == EncodeObject(Go, items)
  {
    var before, member, tail := Written(items, i - 1), EncodeMember(Go, items[i - 1]), EncodeTail(Go, items[i..]);
    Regroup(before, member, tail);
    if i > 1 {
      WrittenThenRest(items, i - 1);
      assert items[i - 1..][0] == items[i - 1] && items[i - 1..][1..] == items[i..];
    }
  }

  method WriteObject(items: Members) returns (text: string)
    ensures text == EncodeObject(Go, items)
  {
    text := "{";
    for i := 0 to |items|
      invariant text == Written(items, i)
    {
      text := text + (if i > 0 then "," else "") + EncodeMember(Go, items[i]);
    }
    if items != [] {
      WrittenThenRest(items, |items|);
    }
    text := text + "}";
  }

  function Entries(keys: seq<string>, m: map<string, string>): (items: Members)
    requires forall k :: k in keys ==> k in m
    ensures KeysOf(items) == keys
    ensures forall j :: 0 <= j < |items| ==> items[j].0 in m && items[j].1 == m[items[j].0]
  {
    seq(|keys|, i requires 0 <= i < |keys| => assert keys[i] in keys; (keys[i], m[keys[i]]))
  }

  /** `json.Marshal` of a string map: sorts the keys, then writes the members. */
  method MarshalMap(m: map<string, string>) returns (text: string)
    ensures forall items :: ListsInOrder(items, m) ==> text == EncodeObject(Go, items)
  {
    var keys := RangeKeys(m);
    SortedIncreasing(keys);
    keys := SortStrings(keys);
    ghost var listed := Entries(keys, m);
    text := WriteObject(Entries(keys, m));
    forall other | ListsInOrder(other, m)
      ensures text == EncodeObject(Go, other)
    {
      ListingUnique(listed, other, m);
    }
  }

  /** The copy made key by key is the map itself. */
  method CopyInOrder(keys: seq<string>, payload: map<string, string>) returns (ordered: map<string, string>)
    requires forall k :: k in keys <==> k in payload
    ensures ordered == payload
  {
    ordered := map[];
    for i := 0 to |keys|
      invariant forall k :: k in ordered <==> k in keys[..i]
      invariant forall k :: k in ordered ==> k in payload && ordered[k] == payload[k]
    {
      assert keys[i] in keys;
      assert keys[..i + 1] == keys[..i] + [keys[i]];
      ordered := ordered[keys[i] := payload[keys[i]]];
    }
    assert keys[..|keys|] == keys;
  }

  /** core.go `Fingerprint`: trim into a map, collect its keys, sort them, copy in that order into
      a second map, marshal, hash. The order the first map yields its keys in does not matter. */
  method GoFingerprint(sha: Hash, v: Identity) returns (fp: string)
    ensures fp == Fingerprint(Go, sha, v)
  {
    hide Trim;
    var payload := CanonicalMap(Go, v);
    var keys := RangeKeys(payload);
    SortedIncreasing(keys);
    keys := SortStrings(keys);
    var ordered := CopyInOrder(keys, payload);
    var b := MarshalMap(ordered);
    CanonicalItemsListed(Go, v);
    fp := sha(b);
  }
}
