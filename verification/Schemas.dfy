/** The request validators (orchestrator/app/schemas.py): what may become an epoch or a target. */
module Schemas {
  import opened Text
  import opened Json
  import opened Identities

  predicate IsHex(c: char) {
    '0' <= c <= '9' || 'a' <= c <= 'f' || 'A' <= c <= 'F'
  }

  predicate AllHex(s: string) {
    forall i :: 0 <= i < |s| ==> IsHex(s[i])
  }

  function LowerChar(c: char): char {
    if 'A' <= c <= 'Z' then (c as int + 32) as char else c
  }

  /** Lower case of the ASCII letters. The only other character whose lower case is an ASCII
      letter by itself is the Kelvin sign: no word of the policy contains a `k`, and the header of
      a webhook, which arrives as Latin-1, cannot contain the sign. */
  function Lower(s: string): (r: string)
    ensures |r| == |s|
    ensures forall i :: 0 <= i < |s| ==> r[i] == LowerChar(s[i])
  {
    seq(|s|, i requires 0 <= i < |s| => LowerChar(s[i]))
  }

  predicate IsSlugStart(c: char) {
    'a' <= c <= 'z' || '0' <= c <= '9'
  }

  predicate IsSlugChar(c: char) {
    IsSlugStart(c) || c == '_' || c == '-'
  }

  /** `^[a-z0-9][a-z0-9_-]{1,31}$` */
  predicate IsEnvironment(s: string) {
    2 <= |s| <= 32 && IsSlugStart(s[0]) && forall i :: 0 <= i < |s| ==> IsSlugChar(s[i])
  }

  /** `^[a-z][a-z0-9_-]{1,39}$` */
  predicate IsAction(s: string) {
    2 <= |s| <= 40 && 'a' <= s[0] <= 'z' && forall i :: 0 <= i < |s| ==> IsSlugChar(s[i])
  }

  predicate IsDigest(s: string) {
    |s| == 71 && s[..7] == "sha256:" && AllHex(s[7..])
  }

  predicate IsConfigHash(s: string) {
    || (36 <= |s| <= 68 && s[..4] == "cfg:" && AllHex(s[4..]))
    || IsDigest(s)
  }

  /** A text field: surrounding whitespace stripped first, then the length bounds. The validator
      library strips the characters Go's trim strips. */
  function ParseText(raw: string, lo: nat, hi: nat): Option<string> {
    var s := Trim(Go, raw);
    if lo <= |s| <= hi then Some(s) else None
  }

  /** `IdentityFields`: strip, check, and lower the three content references. */
  function ParseIdentity(raw: Identity): Option<Identity> {
    var v := Canonical(Go, raw);
    if && 2 <= |v.project| <= 120
       && IsEnvironment(v.environment)
       && 7 <= |v.commitSha| <= 64 && AllHex(v.commitSha)
       && IsDigest(v.artifactDigest)
       && IsConfigHash(v.configHash)
    then Some(v.(commitSha := Lower(v.commitSha), artifactDigest := Lower(v.artifactDigest),
                 configHash := Lower(v.configHash)))
    else None
  }

  predicate IsLower(s: string) {
    Lower(s) == s
  }

  /** What the rest of the system may assume of an identity that passed the validators. */
  predicate ValidIdentity(v: Identity) {
    && IsTrimmed(Go, v.project) && 2 <= |v.project| <= 120
    && IsEnvironment(v.environment)
    && 7 <= |v.commitSha| <= 64 && AllHex(v.commitSha) && IsLower(v.commitSha)
    && IsDigest(v.artifactDigest) && IsLower(v.artifactDigest)
    && IsConfigHash(v.configHash) && IsLower(v.configHash)
  }

  /** Hex digits, letters and a colon: nothing either runtime trims or escapes. */
  predicate IsPlain(s: string) {
    forall i :: 0 <= i < |s| ==> IsSlugChar(s[i]) || IsHex(s[i]) || s[i] == ':'
  }

  lemma PlainFacts(rt: Runtime, s: string)
    requires IsPlain(s)
    ensures Trim(rt, s) == s && SharedAlphabet(s) && CommonField(s)
    ensures '\U{0}' !in s
  {
    TrimFixpoint(rt, s);
    TrimFixpoint(Go, s);
    TrimFixpoint(Python, s);
  }

  lemma LoweredPlain(s: string)
    requires IsPlain(s) || AllHex(s)
    ensures IsPlain(Lower(s)) && (AllHex(s) ==> AllHex(Lower(s)))
  {
  }

  lemma DigestPlain(s: string)
    requires IsDigest(s)
    ensures IsPlain(s)
  {
    assert forall i :: 7 <= i < |s| ==> s[i] == s[7..][i - 7];
    assert forall i :: 0 <= i < 7 ==> s[i] == s[..7][i];
    assert forall i :: 0 <= i < 7 ==> IsSlugChar("sha256:"[i]) || "sha256:"[i] == ':';
  }

  lemma ConfigPlain(s: string)
    requires IsConfigHash(s)
    ensures IsPlain(s)
  {
    if IsDigest(s) {
      DigestPlain(s);
    } else {
      assert forall i :: 4 <= i < |s| ==> s[i] == s[4..][i - 4];
      assert forall i :: 0 <= i < 4 ==> s[i] == s[..4][i];
      assert forall i :: 0 <= i < 4 ==> IsSlugChar("cfg:"[i]) || "cfg:"[i] == ':';
    }
  }

  lemma LoweredLower(s: string)
    ensures IsLower(Lower(s))
  {
    assert forall i :: 0 <= i < |s| ==> Lower(Lower(s))[i] == Lower(s)[i];
  }

  lemma LoweredDigest(s: string)
    requires IsDigest(s)
    ensures IsDigest(Lower(s))
  {
    var r := Lower(s);
    assert forall i :: 0 <= i < 7 ==> r[i] == LowerChar(s[..7][i]) == "sha256:"[i];
    assert forall i :: 0 <= i < 64 ==> r[7..][i] == LowerChar(s[7..][i]);
    assert r[..7] == "sha256:";
  }

  lemma LoweredConfig(s: string)
    requires IsConfigHash(s)
    ensures IsConfigHash(Lower(s))
  {
    if IsDigest(s) {
      LoweredDigest(s);
    } else {
      var r := Lower(s);
      assert forall i :: 0 <= i < 4 ==> r[i] == LowerChar(s[..4][i]) == "cfg:"[i];
      assert forall i :: 0 <= i < |s| - 4 ==> r[4..][i] == LowerChar(s[4..][i]);
      assert r[..4] == "cfg:";
    }
  }

  /** Everything the validators accept comes out stripped, with its content references in their
      formats and in lower case, and within the length bounds. */
  lemma ParsedIsValid(raw: Identity)
    requires ParseIdentity(raw).Some?
    ensures ValidIdentity(ParseIdentity(raw).value)
  {
    var v := Canonical(Go, raw);
    TrimIsTrimmed(Go, raw.project);
    LoweredPlain(v.commitSha);
    LoweredDigest(v.artifactDigest);
    LoweredConfig(v.configHash);
    LoweredLower(v.commitSha);
    LoweredLower(v.artifactDigest);
    LoweredLower(v.configHash);
  }

  /** The valid identities are exactly those that the validators return unchanged, so validating
      twice is validating once. */
  lemma ValidExactly(v: Identity)
    ensures ValidIdentity(v) <==> ParseIdentity(v) == Some(v)
  {
    if ValidIdentity(v) {
      TrimFixpoint(Go, v.project);
      EnvironmentPlain(v.environment);
      EnvironmentPlain(v.commitSha);
      DigestPlain(v.artifactDigest);
      ConfigPlain(v.configHash);
      PlainFacts(Go, v.environment);
      PlainFacts(Go, v.commitSha);
      PlainFacts(Go, v.artifactDigest);
      PlainFacts(Go, v.configHash);
    } else if ParseIdentity(v) == Some(v) {
      ParsedIsValid(v);
      assert false;
    }
  }

  /** A text field is taken exactly if what is left of it between whitespace is within the bounds,
      and that is what is taken. */
  lemma ParseTextExactly(raw: string, lo: nat, hi: nat, t: string)
    ensures ParseText(raw, lo, hi) == Some(t) <==>
            IsTrimmed(Go, t) && (exists a, b :: SplitsAs(Go, raw, a, t, b)) && lo <= |t| <= hi
  {
    TrimExactly(Go, raw, t);
    hide Trim;
    hide IsTrimmed;
    hide SplitsAs;
  }

  /** What is taken, and what is kept of each field: stripped, the three content references in lower
      case besides. Case and surrounding whitespace are no grounds for refusal. */
  lemma ParsedFields(raw: Identity)
    ensures ParseIdentity(raw).Some? <==>
            && 2 <= |Trim(Go, raw.project)| <= 120 && IsEnvironment(Trim(Go, raw.environment))
            && 7 <= |Trim(Go, raw.commitSha)| <= 64 && AllHex(Trim(Go, raw.commitSha))
            && IsDigest(Trim(Go, raw.artifactDigest)) && IsConfigHash(Trim(Go, raw.configHash))
    ensures ParseIdentity(raw).Some? ==>
              var v := ParseIdentity(raw).value;
              && v.project == Trim(Go, raw.project) && v.environment == Trim(Go, raw.environment)
              && v.commitSha == Lower(Trim(Go, raw.commitSha))
              && v.artifactDigest == Lower(Trim(Go, raw.artifactDigest))
              && v.configHash == Lower(Trim(Go, raw.configHash))
  {
  }

  const HEX: string := "0123456789abcdefABCDEF"
  const SLUG_START: string := "abcdefghijklmnopqrstuvwxyz0123456789"
  const SLUG: string := "abcdefghijklmnopqrstuvwxyz0123456789_-"

  ghost predicate Each(s: string, alphabet: string) {
    forall c :: c in s ==> c in alphabet
  }

  lemma CharactersAre(c: char)
    ensures IsHex(c) <==> c in HEX
    ensures IsSlugStart(c) <==> c in SLUG_START
    ensures IsSlugChar(c) <==> c in SLUG
  {
  }

  lemma AllHexEach(s: string)
    ensures AllHex(s) <==> Each(s, HEX)
  {
    forall i | 0 <= i < |s|
      ensures IsHex(s[i]) <==> s[i] in HEX
    {
      CharactersAre(s[i]);
    }
  }

  /** The content formats as their patterns read: a fixed start, then hexadecimal digits in either
      case, 64 of them for a digest and 32 to 64 after `cfg:`. */
  lemma FormatsAsPatterns(s: string)
    ensures IsDigest(s) <==> exists hex :: s == "sha256:" + hex && |hex| == 64 && Each(hex, HEX)
    ensures IsConfigHash(s) <==>
            || IsDigest(s)
            || exists hex :: s == "cfg:" + hex && 32 <= |hex| <= 64 && Each(hex, HEX)
  {
    if |s| >= 7 && s[..7] == "sha256:" {
      AllHexEach(s[7..]);
      assert s == "sha256:" + s[7..];
    }
    if |s| >= 4 && s[..4] == "cfg:" {
      AllHexEach(s[4..]);
      assert s == "cfg:" + s[4..];
    }
    forall hex | s == "sha256:" + hex
      ensures s[7..] == hex
    {
    }
    forall hex | s == "cfg:" + hex
      ensures s[4..] == hex
    {
    }
    hide AllHex;
    hide Each;
  }

  /** A name as its pattern reads: one lower-case letter or digit, then 1 to 31 of those and `_-`. */
  lemma EnvironmentAsPattern(s: string)
    ensures IsEnvironment(s) <==>
            exists head: char, tail :: s == [head] + tail && head in SLUG_START && 1 <= |tail| <= 31 && Each(tail, SLUG)
  {
    if s != "" {
      CharactersAre(s[0]);
      assert s == [s[0]] + s[1..];
      SlugTail(s);
    }
    forall head: char, tail | s == [head] + tail
      ensures s[0] == head && s[1..] == tail
    {
    }
    hide IsSlugStart;
    hide IsSlugChar;
    hide Each;
  }

  lemma SlugTail(s: string)
    requires s != ""
    ensures Each(s[1..], SLUG) && s[0] in SLUG_START ==> forall i :: 0 <= i < |s| ==> IsSlugChar(s[i])
    ensures (forall i :: 0 <= i < |s| ==> IsSlugChar(s[i])) ==> Each(s[1..], SLUG)
  {
    forall i | 0 <= i < |s|
      ensures IsSlugChar(s[i]) <==> s[i] in SLUG
      ensures i > 0 ==> s[i] == s[1..][i - 1] && s[i] in s[1..]
    {
      CharactersAre(s[i]);
    }
    CharactersAre(s[0]);
  }

  lemma EnvironmentPlain(s: string)
    requires IsEnvironment(s) || IsAction(s) || AllHex(s)
    ensures IsPlain(s)
  {
  }

  /** Only the project name can take a validated identity out of the common alphabet. */
  lemma ValidCommonAlphabet(v: Identity)
    requires ValidIdentity(v)
    ensures CommonAlphabet(v) <==> CommonField(v.project)
    ensures '\U{0}' !in v.environment
  {
    EnvironmentPlain(v.environment);
    EnvironmentPlain(v.commitSha);
    DigestPlain(v.artifactDigest);
    ConfigPlain(v.configHash);
    PlainFacts(Go, v.environment);
    PlainFacts(Go, v.commitSha);
    PlainFacts(Go, v.artifactDigest);
    PlainFacts(Go, v.configHash);
  }

  lemma LowerSlug(s: string)
    requires IsEnvironment(s) || IsAction(s)
    ensures Lower(Trim(Python, s)) == s
  {
    EnvironmentPlain(s);
    PlainFacts(Python, s);
  }
}
